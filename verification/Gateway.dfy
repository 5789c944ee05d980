/** The MCP gateway: tool policies, the cached visible set, registration and the two access checks
    (internal/gateway/gateway.go, scope.go, policy.go). */
module Gateway {
  import opened EventTypes
  import opened Catalog

  datatype ToolPolicy = ToolPolicy(allowOnly: seq<string>, deny: seq<string>)

  type Policies = map<string, Option<ToolPolicy>>

  datatype RegistryTool = RegistryTool(server: string, tool: string, enabled: bool)

  type VisibleMap = map<string, bool>

  // --- Policies ---

  /** An exact name, everything, or a prefix followed by a star. */
  predicate Matches(pattern: string, name: string) {
    || pattern == "*" || pattern == name
    || (|pattern| > 0 && pattern[|pattern| - 1] == '*' && pattern[..|pattern| - 1] <= name)
  }

  predicate MatchesSome(patterns: seq<string>, name: string) {
    exists i :: 0 <= i < |patterns| && Matches(patterns[i], name)
  }

  method MatchesAny(patterns: seq<string>, name: string) returns (b: bool)
    ensures b == MatchesSome(patterns, name)
  {
    for i := 0 to |patterns|
      invariant forall j :: 0 <= j < i ==> !Matches(patterns[j], name)
    {
      var p := patterns[i];
      if p == "*" || p == name {
        return true;
      }
      if |p| > 0 && p[|p| - 1] == '*' && p[..|p| - 1] <= name {
        return true;
      }
    }
    b := false;
  }

  /** No policy allows everything; otherwise the name must pass the allow list, if any, and not be denied. */
  predicate PolicyAllowed(policy: Option<ToolPolicy>, name: string) {
    policy.Some? ==>
      && (policy.value.allowOnly == [] || MatchesSome(policy.value.allowOnly, name))
      && !MatchesSome(policy.value.deny, name)
  }

  method CheckPolicy(policy: Option<ToolPolicy>, name: string) returns (b: bool)
    ensures b == PolicyAllowed(policy, name)
  {
    if policy.None? {
      return true;
    }
    if |policy.value.allowOnly| > 0 {
      var allowed := MatchesAny(policy.value.allowOnly, name);
      if !allowed {
        return false;
      }
    }
    var denied := MatchesAny(policy.value.deny, name);
    b := !denied;
  }

  function PolicyFor(policies: Policies, server: string): Option<ToolPolicy> {
    if server in policies then policies[server] else None
  }

  // --- The visible set ---

  /** The last registry record of a key decides; a key without record is enabled. */
  predicate Enabled(tools: seq<RegistryTool>, k: string) {
    if tools == [] then true
    else
      var t := tools[|tools| - 1];
      if Key(t.server, t.tool) == k then t.enabled else Enabled(tools[..|tools| - 1], k)
  }

  predicate Admits(c: Entries, policies: Policies, tools: seq<RegistryTool>, k: string)
    requires k in c
  {
    Enabled(tools, k) && PolicyAllowed(PolicyFor(policies, c[k].server), c[k].tool)
  }

  function VisibleSet(c: Entries, policies: Policies, tools: seq<RegistryTool>): VisibleMap {
    map k | k in c :: Admits(c, policies, tools, k)
  }

  /** What a build takes under the lock when it starts. */
  datatype Build = Build(gen: nat, policies: Policies, hasStore: bool, catalog: Entries)

  /** What a build computes from its snapshot and the registry's reply; None when the read fails. An
      empty catalog needs no read, and without a registry every tool is enabled. */
  function Computed(b: Build, reply: Option<seq<RegistryTool>>): Option<VisibleMap> {
    if b.catalog == map[] then Some(map[])
    else if !b.hasStore then Some(VisibleSet(b.catalog, b.policies, []))
    else if reply.None? then None
    else Some(VisibleSet(b.catalog, b.policies, reply.value))
  }

  method EnabledMap(tools: seq<RegistryTool>) returns (m: map<string, bool>)
    ensures forall k :: Enabled(tools, k) == (k in m ==> m[k])
  {
    m := map[];
    for i := 0 to |tools|
      invariant forall k :: Enabled(tools[..i], k) == (k in m ==> m[k])
    {
      assert tools[..i + 1][..i] == tools[..i];
      m := m[Key(tools[i].server, tools[i].tool) := tools[i].enabled];
    }
    assert tools[..|tools|] == tools;
  }

  method Compute(b: Build, reply: Option<seq<RegistryTool>>) returns (r: Option<VisibleMap>)
    ensures r == Computed(b, reply)
  {
    if |b.catalog| == 0 {
      return Some(map[]);
    }
    var enabledMap := map[];
    if b.hasStore {
      if reply.None? {
        return None;
      }
      enabledMap := EnabledMap(reply.value);
    }
    ghost var tools := if b.hasStore then reply.value else [];
    var newSet: VisibleMap := map[];
    var todo := b.catalog.Keys;
    while todo != {}
      invariant todo <= b.catalog.Keys && newSet.Keys == b.catalog.Keys - todo
      invariant forall k :: k in newSet ==> newSet[k] == Admits(b.catalog, b.policies, tools, k)
      decreases |todo|
    {
      var k :| k in todo;
      var entry := b.catalog[k];
      var allowed := CheckPolicy(PolicyFor(b.policies, entry.server), entry.tool);
      var enabled := true;
      if b.hasStore && k in enabledMap {
        enabled := enabledMap[k];
      }
      newSet := newSet[k := enabled && allowed];
      todo := todo - {k};
    }
    assert newSet == VisibleSet(b.catalog, b.policies, tools);
    r := Some(newSet);
  }

  // --- The two access checks ---

  datatype Scope = Scope(allowed: set<string>, expires: int)

  type Scopes = map<string, Scope>

  /** Registering a scope; an empty list registers none. */
  function Scoped(scopes: Scopes, agent: string, allowed: seq<string>, expires: int): Scopes {
    if allowed == [] then scopes else scopes[agent := Scope((set k | k in allowed), expires)]
  }

  /** What the access checks read. */
  datatype View = View(catalog: Entries, visible: Option<VisibleMap>, enforced: bool, scopes: Scopes)

  predicate ToolVisible(v: View, k: string) {
    if v.visible.None? then !v.enforced
    else k in v.catalog && k in v.visible.value && v.visible.value[k]
  }

  predicate VisibleForAgent(v: View, agent: string, now: int, k: string) {
    && ToolVisible(v, k)
    && (agent in v.scopes && now <= v.scopes[agent].expires ==> k in v.scopes[agent].allowed)
  }

  /** The proxy handler lets the call through; the agent is "" when the request carries none. */
  predicate Callable(v: View, agent: string, now: int, k: string) {
    ToolVisible(v, k) && (agent != "" ==> VisibleForAgent(v, agent, now, k))
  }

  /** The tool stays in the agent's tool list. */
  predicate Listed(v: View, agent: string, now: int, k: string) {
    || (v.visible.None? && !v.enforced)
    || k !in v.catalog
    || (&& v.visible.Some? && k in v.visible.value && v.visible.value[k]
        && (agent != "" && agent in v.scopes && now < v.scopes[agent].expires ==> k in v.scopes[agent].allowed))
  }

  function ListedOf(v: View, agent: string, now: int, tools: seq<string>): seq<string> {
    if tools == [] then []
    else
      var front, k := ListedOf(v, agent, now, tools[..|tools| - 1]), tools[|tools| - 1];
      if Listed(v, agent, now, k) then front + [k] else front
  }

  /** The agent has a scope, not yet expired, that leaves the tool out. */
  predicate OutOfScope(v: View, agent: string, now: int, k: string) {
    agent != "" && agent in v.scopes && now <= v.scopes[agent].expires && k !in v.scopes[agent].allowed
  }

  /** For a catalogued tool the checks agree except, exactly, for a tool left out of the agent's
      scope while nothing is enforced and no set was built, or a visible one at the instant the scope
      expires; the tool is then listed and cannot be called. */
  lemma ListCallAgreement(v: View, agent: string, now: int, k: string)
    requires k in v.catalog
    ensures (Listed(v, agent, now, k) <==> Callable(v, agent, now, k)) <==>
            !(OutOfScope(v, agent, now, k)
              && (if v.visible.None? then !v.enforced
                  else k in v.visible.value && v.visible.value[k] && now == v.scopes[agent].expires))
    ensures Callable(v, agent, now, k) ==> Listed(v, agent, now, k)
  {
  }

  /** fracta's own tools, which are not in the catalog, are always listed. */
  lemma NativesListed(v: View, agent: string, now: int, tools: seq<string>, k: string)
    requires k !in v.catalog
    ensures k in ListedOf(v, agent, now, tools) <==> k in tools
  {
    ListedMembers(v, agent, now, tools, k);
  }

  /** The list keeps exactly the tools that pass the check. */
  lemma {:induction false} ListedMembers(v: View, agent: string, now: int, tools: seq<string>, k: string)
    ensures k in ListedOf(v, agent, now, tools) <==> k in tools && Listed(v, agent, now, k)
  {
    if tools != [] {
      var front := tools[..|tools| - 1];
      ListedMembers(v, agent, now, front, k);
      assert tools == front + [tools[|tools| - 1]];
    }
  }

  /** With enforcement configured or a set built, listing and calling agree at every instant but the
      scope's expiry. */
  lemma EnforcedAgreement(v: View, agent: string, now: int, k: string)
    requires k in v.catalog && (v.enforced || v.visible.Some?)
    requires agent in v.scopes ==> now != v.scopes[agent].expires
    ensures Listed(v, agent, now, k) <==> Callable(v, agent, now, k)
  {
    ListCallAgreement(v, agent, now, k);
  }

  // --- The gateway ---

  class Gateway {
    var attached: bool
    var catalog: Entries
    var handlers: Handlers
    var hasStore: bool
    var policies: Policies
    var visibleSet: Option<VisibleMap>
    var visibleGen: nat
    var scopes: Scopes

    ghost predicate Valid() reads this {
      Keyed(catalog) && Synced(catalog, handlers) && NativesPlain(handlers)
    }

    function AsView(): View reads this {
      View(catalog, visibleSet, hasStore || |policies| > 0, scopes)
    }

    constructor (natives: set<string>)
      requires forall k :: k in natives ==> '.' !in k
      ensures Valid() && catalog == map[] && visibleSet.None? && visibleGen == 0 && scopes == map[]
      ensures handlers == (map k | k in natives :: Native) && !hasStore && policies == map[] && attached
    {
      attached := true;
      catalog := map[];
      handlers := map k | k in natives :: Native;
      hasStore := false;
      policies := map[];
      visibleSet := None;
      visibleGen := 0;
      scopes := map[];
    }

    // The first critical section of a build: a new generation and a snapshot.
    method Begin() returns (b: Build)
      modifies this`visibleGen
      ensures visibleGen == old(visibleGen) + 1
      ensures b == Build(visibleGen, policies, hasStore, catalog)
    {
      visibleGen := visibleGen + 1;
      b := Build(visibleGen, policies, hasStore, catalog);
    }

    // The second one: publish unless a newer build has started.
    method Publish(gen: nat, set': VisibleMap)
      modifies this`visibleSet
      ensures visibleSet == if visibleGen == gen then Some(set') else old(visibleSet)
    {
      if visibleGen == gen {
        visibleSet := Some(set');
      }
    }

    /** A build that nothing interrupts. */
    method BuildVisibleSet(reply: Option<seq<RegistryTool>>)
      modifies this`visibleGen, this`visibleSet
      ensures visibleGen == old(visibleGen) + 1
      ensures var r := Computed(Build(visibleGen, policies, hasStore, catalog), reply);
              visibleSet == if r.Some? then r else old(visibleSet)
      ensures hasStore && catalog != map[] && reply.None? ==> visibleSet == old(visibleSet)
    {
      var b := Begin();
      var r := Compute(b, reply);
      if r.Some? {
        Publish(b.gen, r.value);
      }
    }

    method FilterToolsForAgent(agent: string, now: int, tools: seq<string>) returns (filtered: seq<string>)
      ensures filtered == ListedOf(AsView(), agent, now, tools)
    {
      if visibleSet.None? && !hasStore && |policies| == 0 {
        AllListed(AsView(), agent, now, tools);
        return tools;
      }
      var scope := None;
      if agent != "" && agent in scopes && now < scopes[agent].expires {
        scope := Some(scopes[agent]);
      }
      filtered := [];
      for i := 0 to |tools|
        invariant filtered == ListedOf(AsView(), agent, now, tools[..i])
      {
        assert tools[..i + 1][..i] == tools[..i];
        var k := tools[i];
        if k !in catalog {
          filtered := filtered + [k];
        } else if visibleSet.Some? && k in visibleSet.value && visibleSet.value[k]
          && (scope.Some? ==> k in scope.value.allowed) {
          filtered := filtered + [k];
        }
      }
      assert tools[..|tools|] == tools;
    }

    method RegisterScope(agent: string, allowed: seq<string>, now: int, ttl: int)
      modifies this`scopes
      ensures scopes == Scoped(old(scopes), agent, allowed, now + ttl)
      ensures allowed == [] ==> scopes == old(scopes)
      ensures allowed != [] ==>
                && scopes.Keys == old(scopes).Keys + {agent} && scopes[agent].expires == now + ttl
                && (forall k :: k in scopes[agent].allowed <==> k in allowed)
                && forall a :: a in old(scopes) && a != agent ==> scopes[a] == old(scopes)[a]
    {
      if allowed != [] {
        var tools := {};
        for i := 0 to |allowed|
          invariant tools == set k | k in allowed[..i]
        {
          assert allowed[..i + 1] == allowed[..i] + [allowed[i]];
          tools := tools + {allowed[i]};
        }
        assert allowed[..|allowed|] == allowed;
        scopes := scopes[agent := Scope(tools, now + ttl)];
      }
    }

    method UnregisterScope(agent: string)
      modifies this`scopes
      ensures scopes == old(scopes) - {agent}
    {
      scopes := scopes - {agent};
    }

    /** Adds one proxy and its catalog entry, replacing what the key held. */
    method AddProxy(server: string, t: Tool)
      requires Valid()
      modifies this`catalog, this`handlers
      ensures Valid() && SameNatives(old(handlers), handlers)
      ensures catalog == old(catalog)[Key(server, t.name) := EntryOf(server, t)]
    {
      var k := Key(server, t.name);
      assert k[|server|] == '.';
      handlers := handlers[k := Proxy(EntryOf(server, t))];
      catalog := catalog[k := EntryOf(server, t)];
    }

    /** Drops catalog entries together with their proxies. */
    method DropProxies(ks: set<string>)
      requires Valid() && ks <= catalog.Keys
      modifies this`catalog, this`handlers
      ensures Valid() && SameNatives(old(handlers), handlers)
      ensures catalog == old(catalog) - ks
    {
      catalog := catalog - ks;
      handlers := handlers - ks;
    }

    /** Adds the tool unless something is registered under its key; tells how many entries that added. */
    method RegisterTool(name: string, t: Tool) returns (added: nat)
      requires Valid()
      modifies this`catalog, this`handlers
      ensures Valid() && SameNatives(old(handlers), handlers)
      ensures catalog == if Key(name, t.name) in old(catalog) then old(catalog)
              else old(catalog)[Key(name, t.name) := EntryOf(name, t)]
      ensures added == |catalog| - |old(catalog)|
    {
      var k := Key(name, t.name);
      assert k[|name|] == '.';
      added := 0;
      if k !in handlers {
        AddProxy(name, t);
        added := 1;
      }
    }

    method RegisterTools(name: string, tools: seq<Tool>) returns (n: nat)
      requires Valid()
      modifies this`catalog, this`handlers
      ensures Valid() && SameNatives(old(handlers), handlers)
      ensures catalog == Registered(old(catalog), name, tools) && n == |catalog| - |old(catalog)|
    {
      n := 0;
      for i := 0 to |tools|
        invariant Valid() && SameNatives(old(handlers), handlers)
        invariant catalog == Registered(old(catalog), name, tools[..i]) && n == |catalog| - |old(catalog)|
      {
        assert tools[..i + 1][..i] == tools[..i];
        var added := RegisterTool(name, tools[i]);
        n := n + added;
      }
      assert tools[..|tools|] == tools;
    }

    /** Registers a server's tools under their free keys; tools is None when discovery fails. */
    method RegisterServer(name: string, tools: Option<seq<Tool>>) returns (registered: Option<nat>)
      requires Valid()
      modifies this`catalog, this`handlers
      ensures Valid() && SameNatives(old(handlers), handlers)
      ensures tools.None? ==> registered.None? && catalog == old(catalog)
      ensures tools.Some? ==> catalog == Registered(old(catalog), name, tools.value)
      ensures tools.Some? ==> registered == Some(|catalog| - |old(catalog)|)
    {
      if tools.None? {
        return None;
      }
      var n := RegisterTools(name, tools.value);
      registered := Some(n);
    }

    method UnregisterServer(name: string)
      requires Valid()
      modifies this`catalog, this`handlers
      ensures Valid() && SameNatives(old(handlers), handlers)
      ensures catalog == Unregistered(old(catalog), name)
      ensures forall k :: k in catalog <==> k in old(catalog) && old(catalog)[k].server != name
      ensures forall k :: k in catalog ==> catalog[k] == old(catalog)[k]
    {
      var toDelete := set k | k in catalog && catalog[k].server == name;
      DropProxies(toDelete);
    }

    /** Makes the server's part of the catalog equal to the incoming tools, then rebuilds the visible
        set from it. */
    method ReconcileServer(name: string, tools: seq<Tool>, reply: Option<seq<RegistryTool>>) returns (ok: bool)
      requires Valid()
      modifies this`catalog, this`handlers, this`visibleGen, this`visibleSet
      ensures Valid() && SameNatives(old(handlers), handlers) && ok == attached
      ensures !ok ==> catalog == old(catalog) && visibleSet == old(visibleSet) && visibleGen == old(visibleGen)
      ensures ok ==> catalog == Reconciled(old(catalog), name, tools)
      ensures ok ==>
                var r := Computed(Build(visibleGen, policies, hasStore, catalog), reply);
                visibleGen == old(visibleGen) + 1 && visibleSet == if r.Some? then r else old(visibleSet)
    {
      ok := attached;
      if !attached {
        return;
      }
      Reconcile(name, tools);
      BuildVisibleSet(reply);
    }

    method Reconcile(name: string, tools: seq<Tool>)
      requires Valid()
      modifies this`catalog, this`handlers
      ensures Valid() && SameNatives(old(handlers), handlers)
      ensures catalog == Reconciled(old(catalog), name, tools)
    {
      var incoming := {};
      for i := 0 to |tools|
        invariant incoming == Names(tools[..i])
      {
        assert tools[..i + 1][i] == tools[i];
        assert forall j :: 0 <= j < i ==> tools[..i + 1][j] == tools[..i][j];
        incoming := incoming + {tools[i].name};
      }
      assert tools[..|tools|] == tools;
      var toRemove := set k | k in catalog && catalog[k].server == name && catalog[k].tool !in incoming;
      if toRemove != {} {
        DropProxies(toRemove);
      }
      assert catalog == old(catalog) - toRemove;
      for i := 0 to |tools|
        invariant Valid() && SameNatives(old(handlers), handlers)
        invariant catalog == AddAll(old(catalog) - toRemove, name, tools[..i])
      {
        assert tools[..i + 1][..i] == tools[..i];
        AddProxy(name, tools[i]);
      }
    }
  }

  lemma {:induction false} AllListed(v: View, agent: string, now: int, tools: seq<string>)
    requires v.visible.None? && !v.enforced
    ensures ListedOf(v, agent, now, tools) == tools
  {
    if tools != [] {
      AllListed(v, agent, now, tools[..|tools| - 1]);
    }
  }
}
