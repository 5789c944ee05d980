/** The gateway's tool catalog: namespaced keys and reconciliation (internal/gateway/gateway.go). */
module Catalog {
  import opened Strings

  datatype Entry = Entry(server: string, tool: string, description: string)

  /** A tool as a backend server reports it. */
  datatype Tool = Tool(name: string, description: string)

  /** What is registered under a tool name: fracta's own handler, or a proxy for a catalog entry. */
  datatype Handler = Native | Proxy(entry: Entry)

  type Entries = map<string, Entry>

  type Handlers = map<string, Handler>

  function Key(server: string, tool: string): string {
    server + "." + tool
  }

  lemma KeyInjective(server: string, t: string, u: string)
    ensures Key(server, t) == Key(server, u) <==> t == u
  {
    assert Key(server, t)[|server| + 1..] == t && Key(server, u)[|server| + 1..] == u;
  }

  // --- Splitting a key ---

  /** The server and tool of a namespaced name; a name without a dot has no server. */
  function Parse(name: string): (string, string) {
    var i := IndexOf(name, '.');
    if i < 0 then ("", name) else (name[..i], name[i + 1..])
  }

  /** Parsing splits a key back into its server and tool exactly when the server has no dot. */
  lemma ParseKey(server: string, tool: string)
    ensures Parse(Key(server, tool)) == (server, tool) <==> '.' !in server
  {
    var k := Key(server, tool);
    var i := IndexOf(k, '.');
    assert k[..|server|] == server && k[|server|] == '.' && k[|server| + 1..] == tool;
    assert forall j :: 0 <= j < |server| ==> k[j] == server[j];
    if '.' in server {
      var j :| 0 <= j < |server| && server[j] == '.';
      assert k[j] == '.' && i <= j;
    } else {
      assert i == |server|;
    }
  }

  /** The other direction: a name with a dot is the key of what it parses to. */
  lemma {:induction false} KeyParse(name: string)
    requires '.' in name
    ensures var (server, tool) := Parse(name); Key(server, tool) == name && '.' !in server
  {
    var i := IndexOf(name, '.');
    assert name == name[..i] + [name[i]] + name[i + 1..];
  }

  /** Dotless server names never share a key. */
  lemma NoCollision(s: string, t: string, s': string, t': string)
    requires '.' !in s && '.' !in s' && Key(s, t) == Key(s', t')
    ensures s == s' && t == t'
  {
    ParseKey(s, t);
    ParseKey(s', t');
  }

  // --- Catalog and registrations ---

  predicate Keyed(c: Entries) {
    forall k :: k in c ==> k == Key(c[k].server, c[k].tool)
  }

  /** The registered proxies are the catalog. */
  predicate Synced(c: Entries, h: Handlers) {
    && (forall k :: k in c ==> k in h && h[k] == Proxy(c[k]))
    && (forall k :: k in h && h[k].Proxy? ==> k in c)
  }

  /** Native tool names have no dot. */
  predicate NativesPlain(h: Handlers) {
    forall k :: k in h && h[k].Native? ==> '.' !in k
  }

  /** The same native tools in both. */
  ghost predicate SameNatives(h: Handlers, h': Handlers) {
    forall k :: (k in h && h[k].Native?) <==> (k in h' && h'[k].Native?)
  }

  function EntryOf(server: string, t: Tool): Entry {
    Entry(server, t.name, t.description)
  }

  /** Registering adds the tools whose keys are free. */
  function Registered(c: Entries, server: string, tools: seq<Tool>): Entries {
    if tools == [] then c
    else
      var c', t := Registered(c, server, tools[..|tools| - 1]), tools[|tools| - 1];
      if Key(server, t.name) in c' then c' else c'[Key(server, t.name) := EntryOf(server, t)]
  }

  function Unregistered(c: Entries, server: string): Entries {
    map k | k in c && c[k].server != server :: c[k]
  }

  function Names(tools: seq<Tool>): set<string> {
    set i | 0 <= i < |tools| :: tools[i].name
  }

  /** The server's entries that are not among the tools. */
  function Gone(c: Entries, server: string, tools: seq<Tool>): set<string> {
    set k | k in c && c[k].server == server && c[k].tool !in Names(tools)
  }

  function AddAll(c: Entries, server: string, tools: seq<Tool>): Entries {
    if tools == [] then c
    else
      var t := tools[|tools| - 1];
      AddAll(c, server, tools[..|tools| - 1])[Key(server, t.name) := EntryOf(server, t)]
  }

  function Reconciled(c: Entries, server: string, tools: seq<Tool>): Entries {
    AddAll(c - Gone(c, server, tools), server, tools)
  }

  // --- What reconciliation achieves ---

  ghost predicate HasKey(server: string, tools: seq<Tool>, k: string) {
    exists i :: 0 <= i < |tools| && Key(server, tools[i].name) == k
  }

  ghost predicate FirstWith(server: string, tools: seq<Tool>, k: string, i: nat)
    requires i < |tools|
  {
    Key(server, tools[i].name) == k && forall j :: 0 <= j < i ==> tools[j].name != tools[i].name
  }

  ghost predicate LastWith(server: string, tools: seq<Tool>, k: string, i: nat)
    requires i < |tools|
  {
    Key(server, tools[i].name) == k && forall j :: i < j < |tools| ==> tools[j].name != tools[i].name
  }

  lemma {:induction false} AddAllAt(c: Entries, server: string, tools: seq<Tool>, k: string)
    ensures !HasKey(server, tools, k) ==> (k in AddAll(c, server, tools) <==> k in c)
    ensures !HasKey(server, tools, k) && k in c ==> AddAll(c, server, tools)[k] == c[k]
    ensures HasKey(server, tools, k) ==> k in AddAll(c, server, tools) && AddAll(c, server, tools)[k].server == server
  {
    if tools != [] {
      AddAllAt(c, server, tools[..|tools| - 1], k);
      HasKeyStep(server, tools, k);
    }
  }

  /** Of several tools with one name the last is kept. */
  lemma {:induction false} AddAllLast(c: Entries, server: string, tools: seq<Tool>, i: nat)
    requires i < |tools| && forall j :: i < j < |tools| ==> tools[j].name != tools[i].name
    ensures Key(server, tools[i].name) in AddAll(c, server, tools)
    ensures AddAll(c, server, tools)[Key(server, tools[i].name)] == EntryOf(server, tools[i])
  {
    var front, last := tools[..|tools| - 1], |tools| - 1;
    if i < last {
      KeyInjective(server, tools[i].name, tools[last].name);
      assert forall j :: 0 <= j < |front| ==> front[j] == tools[j];
      AddAllLast(c, server, front, i);
    }
  }

  /** After reconciling, the server's entries are exactly the incoming tools, the last of each name. */
  lemma ReconciledExact(c: Entries, server: string, tools: seq<Tool>, k: string)
    requires Keyed(c)
    ensures var r := Reconciled(c, server, tools);
            && (k in r && r[k].server == server <==> HasKey(server, tools, k))
            && (forall i :: 0 <= i < |tools| && LastWith(server, tools, k, i) ==>
                  k in r && r[k] == Entry(server, tools[i].name, tools[i].description))
  {
    AddAllAt(c - Gone(c, server, tools), server, tools, k);
    forall i | 0 <= i < |tools| && LastWith(server, tools, k, i)
      ensures k in Reconciled(c, server, tools) && Reconciled(c, server, tools)[k] == EntryOf(server, tools[i])
    {
      AddAllLast(c - Gone(c, server, tools), server, tools, i);
    }
    if k in c && c[k].server == server && c[k].tool in Names(tools) {
      var i :| 0 <= i < |tools| && tools[i].name == c[k].tool;
      assert Key(server, tools[i].name) == k;
    }
  }

  /** Another server's entry is kept exactly when no incoming tool has its key; none is added. */
  lemma OthersKept(c: Entries, server: string, tools: seq<Tool>, k: string)
    ensures var r := Reconciled(c, server, tools);
            && (k in c && c[k].server != server ==> (k in r && r[k] == c[k] <==> !HasKey(server, tools, k)))
            && (k in r && r[k].server != server ==> k in c && r[k] == c[k])
  {
    AddAllAt(c - Gone(c, server, tools), server, tools, k);
  }

  /** With dotless server names every other server's entries are exactly as they were. */
  lemma OthersUntouched(c: Entries, server: string, tools: seq<Tool>, k: string)
    requires Keyed(c) && '.' !in server && (k in c ==> '.' !in c[k].server)
    ensures var r := Reconciled(c, server, tools);
            (k in c && c[k].server != server) ==> k in r && r[k] == c[k]
  {
    OthersKept(c, server, tools, k);
    if k in c && c[k].server != server && HasKey(server, tools, k) {
      var i :| 0 <= i < |tools| && Key(server, tools[i].name) == k;
      NoCollision(server, tools[i].name, c[k].server, c[k].tool);
    }
  }

  /** A dot in a server name lets one server take another's entry. */
  lemma DottedServersCollide()
    ensures var c := map["a.b.c" := Entry("a.b", "c", "")];
            var r := Reconciled(c, "a", [Tool("b.c", "")]);
            Keyed(c) && "a.b.c" in r && r["a.b.c"].server == "a"
  {
    var c := map["a.b.c" := Entry("a.b", "c", "")];
    var tools := [Tool("b.c", "")];
    assert Key("a", tools[0].name) == "a.b.c";
    ReconciledExact(c, "a", tools, "a.b.c");
  }

  // --- What registering achieves ---

  lemma HasKeyStep(server: string, tools: seq<Tool>, k: string)
    requires tools != []
    ensures HasKey(server, tools, k) <==>
            HasKey(server, tools[..|tools| - 1], k) || Key(server, tools[|tools| - 1].name) == k
  {
    var front := tools[..|tools| - 1];
    assert forall i :: 0 <= i < |front| ==> front[i] == tools[i];
    if i :| 0 <= i < |tools| && Key(server, tools[i].name) == k {
      assert i < |front| ==> Key(server, front[i].name) == k;
    }
  }

  /** Registering never replaces an entry and adds the server's keys that were free. */
  lemma {:induction false} RegisteredAt(c: Entries, server: string, tools: seq<Tool>, k: string)
    ensures k in Registered(c, server, tools) <==> k in c || HasKey(server, tools, k)
    ensures k in c ==> Registered(c, server, tools)[k] == c[k]
  {
    if tools != [] {
      RegisteredAt(c, server, tools[..|tools| - 1], k);
      HasKeyStep(server, tools, k);
    }
  }

  /** Of several tools with one free name the first is registered. */
  lemma {:induction false} RegisteredFirst(c: Entries, server: string, tools: seq<Tool>, k: string, i: nat)
    requires i < |tools| && k !in c && FirstWith(server, tools, k, i)
    ensures k in Registered(c, server, tools)
    ensures Registered(c, server, tools)[k] == Entry(server, tools[i].name, tools[i].description)
  {
    var front := tools[..|tools| - 1];
    assert forall j :: 0 <= j < |front| ==> front[j] == tools[j];
    if i < |front| {
      RegisteredFirst(c, server, front, k, i);
    } else {
      RegisteredAt(c, server, front, k);
      forall j | 0 <= j < |front| ensures Key(server, front[j].name) != k {
        KeyInjective(server, front[j].name, tools[i].name);
      }
    }
  }
}
