/** The migration from the 3-tier to the 4-tier ontology, as a function of the graph and of the
    choices the database makes (internal/graph/migrate.go). */
module Migration {
  import opened PropertyGraph
  import opened Strings

  const MIGRATION_SOURCE := "migration:v1"
  const MANUAL_SOURCE := "manual:legacy"

  // --- Steps 1a and 1b: label renames ---

  function Stamped(n: Node, was: string, into: Label, now: string): Node {
    var source := if Source in n.props then n.props[Source] else MIGRATION_SOURCE;
    Node(n.labels + {into}, n.props[Source := source][UpdatedAt := now][MigratedFrom := was])
  }

  function AddLabel(g: Graph, l: Label, was: string, into: Label, now: string): Graph {
    g.(nodes := map x | x in g.nodes ::
                  if l in g.nodes[x].labels then Stamped(g.nodes[x], was, into, now) else g.nodes[x])
  }

  /** Removes a label from every node outside `kept`. */
  function RemoveLabel(g: Graph, l: Label, kept: set<nat>): Graph {
    g.(nodes := map x | x in g.nodes ::
                  if x in kept then g.nodes[x] else g.nodes[x].(labels := g.nodes[x].labels - {l}))
  }

  function RenameLabel(g: Graph, l: Label, was: string, into: Label, kept: set<nat>, now: string): Graph {
    if Labelled(g, l) == {} then g else RemoveLabel(AddLabel(g, l, was, into, now), l, kept)
  }

  // --- Steps 2 and 3: DataSource split and edge rewiring ---

  datatype Record = Record(configKey: string, dsType: string, indexPattern: string)

  function RecordOf(n: Node): Record {
    Record(ToString(n, ConfigKey), ToString(n, Type), ToString(n, IndexPattern))
  }

  function DeriveUri(r: Record): string {
    if r.dsType == "mcp" && r.indexPattern == "" then "fracta-mcp-gateway://" + r.configKey + "/"
    else if r.indexPattern != "" then r.dsType + "://" + r.configKey + "/" + r.indexPattern
    else r.dsType + "://" + r.configKey + "/"
  }

  function DeriveStoreType(r: Record): string {
    if r.dsType == "mcp" && r.indexPattern == "" then "fracta-mcp-gateway" else r.dsType
  }

  /** The server name is the part of the key before the first underscore, if that is non-empty. */
  function DeriveServerKey(configKey: string): string {
    var k := IndexOf(configKey, '_');
    if k > 0 then configKey[..k] else configKey
  }

  function ServerProps(r: Record, now: string): map<Key, string> {
    map[Type := r.dsType, Source := MIGRATION_SOURCE, UpdatedAt := now, MigratedFrom := "DataSource"]
  }

  function StoreProps(r: Record, now: string): map<Key, string> {
    map[Type := DeriveStoreType(r), Source := MIGRATION_SOURCE, UpdatedAt := now, MigratedFrom := "DataSource"]
  }

  predicate StoredEdge(g: Graph, e: Edge, key: string) {
    e.typ == QueryableVia && Matches(g, e.dst, DataSource, ConfigKey, key) && IsA(g, e.src, DomainSource)
  }

  /** DomainSource -QUERYABLE_VIA-> DataSource becomes DomainSource -STORED_IN-> DataStore. */
  function RewireStored(g: Graph, key: string, uri: string): Graph {
    var stores := Matching(g, DataStore, Uri, uri);
    var was := set e | e in g.edges && StoredEdge(g, e, key);
    if stores == {} then g
    else g.(edges := (g.edges - was) + set e, d | e in was && d in stores :: Edge(e.src, StoredIn, d))
  }

  predicate FetchEdge(g: Graph, e: Edge, key: string) {
    e.typ == FetchableVia && Matches(g, e.src, DataSource, ConfigKey, key) && IsA(g, e.dst, MCPTool)
  }

  /** DataSource -FETCHABLE_VIA-> MCPTool becomes MCPServer -PROVIDES-> MCPTool. */
  function RewireProvides(g: Graph, key: string): Graph {
    var servers := Matching(g, MCPServer, ConfigKey, key);
    var was := set e | e in g.edges && FetchEdge(g, e, key);
    if servers == {} then g
    else g.(edges := (g.edges - was) + set e, m | e in was && m in servers :: Edge(m, Provides, e.dst))
  }

  /** Server and store nodes of one record, wired together. */
  function CreateNodes(g: Graph, r: Record, now: string): Graph {
    var g1 := if r.dsType == "mcp" then Merge(g, MCPServer, ConfigKey, r.configKey, ServerProps(r, now), now) else g;
    Merge(g1, DataStore, Uri, DeriveUri(r), StoreProps(r, now), now)
  }

  function ServerKeyFor(r: Record): string {
    if r.dsType == "mcp" then r.configKey else DeriveServerKey(r.configKey)
  }

  function WireStore(g: Graph, r: Record): Graph {
    Link(g, Matching(g, DataStore, Uri, DeriveUri(r)), QueryableVia, Matching(g, MCPServer, ConfigKey, ServerKeyFor(r)))
  }

  /** One iteration of the split loop. */
  function SplitOne(g: Graph, r: Record, now: string): Graph {
    if r.configKey == "" then g
    else RewireProvides(RewireStored(WireStore(CreateNodes(g, r, now), r), r.configKey, DeriveUri(r)), r.configKey)
  }

  function SplitAll(g: Graph, rs: seq<Record>, now: string): Graph
    decreases |rs|
  {
    if rs == [] then g else SplitAll(SplitOne(g, rs[0], now), rs[1..], now)
  }

  /** The rows of the DataSource query, in the order the database returns the nodes. */
  function Records(g: Graph, order: seq<nat>): (rs: seq<Record>)
    requires forall x :: x in order ==> x in g.nodes
    ensures |rs| == |order| && forall i :: 0 <= i < |rs| ==> rs[i] == RecordOf(g.nodes[order[i]])
  {
    seq(|order|, i requires 0 <= i < |order| => RecordOf(g.nodes[order[i]]))
  }

  /** `order` lists exactly the nodes of `s`. */
  ghost predicate Enumerates(order: seq<nat>, s: set<nat>) {
    forall x :: x in order <==> x in s
  }

  function Split(g: Graph, order: seq<nat>, now: string): Graph
    requires forall x :: x in order ==> x in g.nodes
  {
    if order == [] then g
    else var g1 := SplitAll(g, Records(g, order), now); DetachDelete(g1, Labelled(g1, DataSource))
  }

  // --- Step 4: ToolRef collapse ---

  predicate UsesToolRef(g: Graph, e: Edge) {
    e.typ == UsesTool && IsA(g, e.src, Strategy) && IsA(g, e.dst, ToolRef)
  }

  /** The tools a ToolRef stands for: those with its name, none when it has no name. */
  function NamedLike(g: Graph, t: nat): set<nat> {
    set x | x in g.nodes && IsA(g, x, MCPTool) && t in g.nodes && Name in g.nodes[t].props
      && Has(g, x, Name, g.nodes[t].props[Name])
  }

  function RewireUses(g: Graph): Graph {
    var was := set e | e in g.edges && UsesToolRef(g, e) && NamedLike(g, e.dst) != {};
    g.(edges := (g.edges - was)
                + set e, x | e in was && x in g.nodes && x in NamedLike(g, e.dst) :: Edge(e.src, UsesTool, x))
  }

  /** Broken dependencies are dropped before the ToolRef nodes are. */
  function CollapseToolRefs(g: Graph): Graph {
    if Labelled(g, ToolRef) == {} then g
    else
      var g1 := RewireUses(g);
      var g2 := g1.(edges := set e | e in g1.edges && !UsesToolRef(g1, e));
      DetachDelete(g2, Labelled(g2, ToolRef))
  }

  // --- Step 5: name cleanup ---

  /** "elastic-search" becomes "elastic.search": the first hyphen turns into a dot. */
  function Dotted(name: string): string {
    var k := IndexOf(name, '-');
    if k < 0 then name else name[..k] + "." + name[k + 1..]
  }

  predicate Hyphenated(name: string) {
    '-' in name && '.' !in name
  }

  /** The nodes the cleanup query returns. */
  predicate Eligible(g: Graph, x: nat) {
    && IsA(g, x, MCPTool)
    && Name in g.nodes[x].props && Hyphenated(g.nodes[x].props[Name])
    && (Source !in g.nodes[x].props || g.nodes[x].props[Source] == MIGRATION_SOURCE)
  }

  predicate Taken(g: Graph, name: string) {
    Matching(g, MCPTool, Name, name) != {}
  }

  predicate FieldEdge(g: Graph, e: Edge, name: string) {
    e.typ == ReturnsField && Matches(g, e.src, MCPTool, Name, name) && IsA(g, e.dst, MCPField)
  }

  /** The fields of the old tool move to the tool that already has the new name. */
  function MoveFields(g: Graph, was: string, into: string): Graph {
    var fields := set e | e in g.edges && FieldEdge(g, e, was);
    var heirs := Matching(g, MCPTool, Name, into);
    if fields == {} || heirs == {} then g
    else g.(edges := (g.edges - fields) + set e, h | e in fields && h in heirs :: Edge(h, ReturnsField, e.dst))
  }

  function Renamed(n: Node, was: string, into: string, now: string): Node {
    n.(props := n.props[Name := into][Source := MIGRATION_SOURCE][UpdatedAt := now][MigratedFrom := was])
  }

  function RenameTools(g: Graph, was: string, into: string, now: string): Graph {
    g.(nodes := map x | x in g.nodes ::
                  if Matches(g, x, MCPTool, Name, was) then Renamed(g.nodes[x], was, into, now) else g.nodes[x])
  }

  /** One iteration of the cleanup loop. */
  function CleanOne(g: Graph, was: string, now: string): Graph {
    var into := Dotted(was);
    if was == "" || into == was then g
    else if Taken(g, into) then
      var g1 := MoveFields(g, was, into);
      DetachDelete(g1, Matching(g1, MCPTool, Name, was))
    else RenameTools(g, was, into, now)
  }

  function CleanAll(g: Graph, names: seq<string>, now: string): Graph
    decreases |names|
  {
    if names == [] then g else CleanAll(CleanOne(g, names[0], now), names[1..], now)
  }

  function NamesOf(g: Graph, order: seq<nat>): (ns: seq<string>)
    requires forall x :: x in order ==> x in g.nodes
    ensures |ns| == |order| && forall i :: 0 <= i < |ns| ==> ns[i] == ToString(g.nodes[order[i]], Name)
  {
    seq(|order|, i requires 0 <= i < |order| => ToString(g.nodes[order[i]], Name))
  }

  // --- Step 6: provenance backfill ---

  function Backfill(g: Graph, l: Label, now: string): Graph {
    g.(nodes := map x | x in g.nodes ::
                  if l in g.nodes[x].labels && Source !in g.nodes[x].props
                  then g.nodes[x].(props := g.nodes[x].props[Source := MANUAL_SOURCE][UpdatedAt := now])
                  else g.nodes[x])
  }

  // --- The whole migration ---

  /** What the database decides: the nodes that keep their old label after the removal of MCPSource
      and of LogSource, and the order of the rows of the two queries. */
  datatype Choices = Choices(keptTools: set<nat>, keptDomains: set<nat>, sources: seq<nat>, tools: seq<nat>)

  function Renames(g: Graph, c: Choices, now: string): Graph {
    RenameLabel(RenameLabel(g, MCPSource, "MCPSource", MCPTool, c.keptTools, now),
                LogSource, "LogSource", DomainSource, c.keptDomains, now)
  }

  /** `g'` is the graph after the migration of `g` under the choices `c`. */
  ghost predicate Migrates(g: Graph, g': Graph, c: Choices, now: string) {
    var g1 := Renames(g, c, now);
    && Enumerates(c.sources, Labelled(g1, DataSource))
    && var g2 := CollapseToolRefs(Split(g1, c.sources, now));
       && Enumerates(c.tools, set x | x in g2.nodes && Eligible(g2, x))
       && g' == Backfill(Backfill(CleanAll(g2, NamesOf(g2, c.tools), now), MCPTool, now), MCPServer, now)
  }
}
