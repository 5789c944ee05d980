/** Editing an ordered YAML tree (internal/mcpcatalog/localcfg.go). */
module YamlEdit {
  import opened EventTypes

  /** A YAML node; a mapping keeps its entries in file order. Blank is the node of an empty file. */
  datatype Node =
    | Blank
    | Document(content: seq<Node>)
    | Mapping(entries: seq<Entry>)
    | Sequence(items: seq<Node>)
    | Scalar(value: string, tag: string)
    | Alias(anchor: string)

  datatype Entry = Entry(key: Node, value: Node)

  /** The text a key is compared by: only scalars and aliases carry one. */
  function Text(n: Node): string {
    match n
    case Scalar(v, _) => v
    case Alias(a) => a
    case _ => ""
  }

  const EMPTY_MAPPING := Mapping([])

  // --- Mappings ---

  /** The position of the first entry with the key, from i on. */
  function Find(es: seq<Entry>, key: string, i: nat): (r: Option<nat>)
    ensures r.Some? ==> i <= r.value < |es| && Text(es[r.value].key) == key
    ensures forall j :: i <= j < (if r.Some? then r.value else |es|) ==> Text(es[j].key) != key
    decreases |es| - i
  {
    if i >= |es| then None
    else if Text(es[i].key) == key then Some(i)
    else Find(es, key, i + 1)
  }

  function Get(m: Node, key: string): Option<Node> {
    if !m.Mapping? then None
    else
      var i := Find(m.entries, key, 0);
      if i.Some? then Some(m.entries[i.value].value) else None
  }

  function Set(m: Node, key: string, v: Node): Node
    requires m.Mapping?
  {
    var i := Find(m.entries, key, 0);
    if i.Some? then Mapping(m.entries[i.value := m.entries[i.value].(value := v)])
    else Mapping(m.entries + [Entry(Scalar(key, "!!str"), v)])
  }

  function Delete(m: Node, key: string): Node {
    if !m.Mapping? then m
    else
      var i := Find(m.entries, key, 0);
      if i.Some? then Mapping(m.entries[..i.value] + m.entries[i.value + 1..]) else m
  }

  function Keys(m: Node): seq<string> {
    if m.Mapping? then seq(|m.entries|, i requires 0 <= i < |m.entries| => Text(m.entries[i].key)) else []
  }

  method MappingGet(m: Node, key: string) returns (r: Option<Node>)
    ensures r == Get(m, key)
  {
    if m.Mapping? {
      var i := 0;
      while i < |m.entries|
        invariant i <= |m.entries| && Find(m.entries, key, 0) == Find(m.entries, key, i)
      {
        if Text(m.entries[i].key) == key {
          return Some(m.entries[i].value);
        }
        i := i + 1;
      }
    }
    r := None;
  }

  method MappingSet(m: Node, key: string, v: Node) returns (r: Node)
    requires m.Mapping?
    ensures r == Set(m, key, v)
  {
    var i := 0;
    while i < |m.entries|
      invariant i <= |m.entries| && Find(m.entries, key, 0) == Find(m.entries, key, i)
    {
      if Text(m.entries[i].key) == key {
        return Mapping(m.entries[i := m.entries[i].(value := v)]);
      }
      i := i + 1;
    }
    r := Mapping(m.entries + [Entry(Scalar(key, "!!str"), v)]);
  }

  method MappingDelete(m: Node, key: string) returns (r: Node, removed: bool)
    ensures r == Delete(m, key) && (removed <==> Get(m, key).Some?)
  {
    r, removed := m, false;
    if m.Mapping? {
      var i := 0;
      while i < |m.entries|
        invariant i <= |m.entries| && Find(m.entries, key, 0) == Find(m.entries, key, i)
      {
        if Text(m.entries[i].key) == key {
          return Mapping(m.entries[..i] + m.entries[i + 1..]), true;
        }
        i := i + 1;
      }
    }
  }

  /** Setting a key is seen by reading that key and by no other read. */
  lemma GetSet(m: Node, key: string, v: Node, k: string)
    requires m.Mapping?
    ensures Get(Set(m, key, v), k) == if k == key then Some(v) else Get(m, k)
  {
    var m' := Set(m, key, v);
    var i, i' := Find(m.entries, k, 0), Find(m'.entries, k, 0);
    if k == key {
      assert i.None? ==> Text(m'.entries[|m.entries|].key) == key;
      assert i.Some? ==> Text(m'.entries[i.value].key) == key;
    } else {
      assert forall j :: 0 <= j < |m.entries| ==> Text(m'.entries[j].key) == Text(m.entries[j].key);
      if i.Some? {
        assert Text(m'.entries[i.value].key) == k;
      }
    }
  }

  /** Of two sets of one key the later counts. */
  lemma SetSet(m: Node, key: string, v: Node, w: Node)
    requires m.Mapping?
    ensures Set(Set(m, key, v), key, w) == Set(m, key, w)
  {
    var m', i := Set(m, key, v), Find(m.entries, key, 0);
    var k := if i.Some? then i.value else |m.entries|;
    assert Text(m'.entries[k].key) == key;
    assert forall j :: 0 <= j < k ==> Text(m'.entries[j].key) == Text(m.entries[j].key);
    assert Find(m'.entries, key, 0) == Some(k);
    assert m'.entries[k := m'.entries[k].(value := w)] == Set(m, key, w).entries;
  }

  /** Setting a key to what it holds changes nothing. */
  lemma SetSame(m: Node, key: string)
    requires Get(m, key).Some?
    ensures Set(m, key, Get(m, key).value) == m
  {
  }

  /** Deleting undoes setting exactly when the key was new. */
  lemma DeleteSet(m: Node, key: string, v: Node)
    requires m.Mapping?
    ensures Delete(Set(m, key, v), key) == m <==> Get(m, key).None?
  {
    var m', i := Set(m, key, v), Find(m.entries, key, 0);
    if i.None? {
      assert Text(m'.entries[|m.entries|].key) == key;
      assert Find(m'.entries, key, 0) == Some(|m.entries|);
      assert m'.entries[..|m.entries|] + m'.entries[|m.entries| + 1..] == m.entries;
    } else {
      assert Text(m'.entries[i.value].key) == key;
      assert |Delete(m', key).entries| == |m.entries| - 1;
    }
  }

  /** Keys stay in their order; a new one goes last. */
  lemma KeysSet(m: Node, key: string, v: Node)
    requires m.Mapping?
    ensures Keys(Set(m, key, v)) == Keys(m) + if Get(m, key).None? then [key] else []
    ensures Get(m, key).None? ==> Set(m, key, v) == Mapping(m.entries + [Entry(Scalar(key, "!!str"), v)])
  {
    assert Set(m, key, v).Mapping?;
  }

  // --- Paths ---

  /** The node at a path of keys. */
  function At(m: Node, path: seq<string>): Option<Node> {
    if path == [] then Some(m)
    else
      var n := Get(m, path[0]);
      if n.None? then None else At(n.value, path[1..])
  }

  datatype Problem = NotMapping | Exists | BadBlock | EmptyName | BadMode

  datatype Outcome = Outcome(node: Node, problem: Option<Problem>)

  /** The mapping to descend into: the one at the key, or a new empty one. */
  function Child(m: Node, key: string): Node {
    if Get(m, key).Some? then Get(m, key).value else EMPTY_MAPPING
  }

  /** Puts block at key in the mapping at path, creating the mappings that are missing; block is None
      when it does not parse. Mappings created before an error stay. */
  function Upsert(m: Node, path: seq<string>, key: string, block: Option<Node>, force: bool): (r: Outcome)
    requires m.Mapping?
    ensures r.node.Mapping?
    decreases |path|
  {
    if path != [] then
      var next := Child(m, path[0]);
      if !next.Mapping? then Outcome(m, Some(NotMapping))
      else
        var o := Upsert(next, path[1..], key, block, force);
        Outcome(Set(m, path[0], o.node), o.problem)
    else if Get(m, key).Some? && !force then Outcome(m, Some(Exists))
    else if block.None? then Outcome(m, Some(BadBlock))
    else Outcome(Set(m, key, block.value), None)
  }

  /** Every node on the path is a mapping, as far as the path exists. */
  predicate Open(m: Node, path: seq<string>) {
    m.Mapping? && (path != [] && Get(m, path[0]).Some? ==> Open(Get(m, path[0]).value, path[1..]))
  }

  /** When an upsert is refused, and with what. */
  lemma {:induction false} UpsertProblem(m: Node, path: seq<string>, key: string, block: Option<Node>, force: bool)
    requires m.Mapping?
    ensures Upsert(m, path, key, block, force).problem ==
            if !Open(m, path) then Some(NotMapping)
            else if At(m, path + [key]).Some? && !force then Some(Exists)
            else if block.None? then Some(BadBlock)
            else None
    decreases |path|
  {
    if path == [] {
      assert path + [key] == [key] && [key][1..] == [];
    } else {
      var next := Child(m, path[0]);
      assert (path + [key])[1..] == path[1..] + [key];
      if next.Mapping? {
        UpsertProblem(next, path[1..], key, block, force);
        if Get(m, path[0]).None? {
          assert At(EMPTY_MAPPING, path[1..] + [key]).None?;
        }
      }
    }
  }

  /** After a successful upsert, looking the key up gives the block. */
  lemma {:induction false} UpsertLookup(m: Node, path: seq<string>, key: string, block: Option<Node>, force: bool)
    requires m.Mapping? && Upsert(m, path, key, block, force).problem.None?
    ensures block.Some? && At(Upsert(m, path, key, block, force).node, path + [key]) == block
    decreases |path|
  {
    if path == [] {
      GetSet(m, key, block.value, key);
      assert (path + [key])[1..] == [];
    } else {
      var next := Child(m, path[0]);
      UpsertLookup(next, path[1..], key, block, force);
      GetSet(m, path[0], Upsert(next, path[1..], key, block, force).node, path[0]);
      assert (path + [key])[1..] == path[1..] + [key];
    }
  }

  /** Neither path is a prefix of the other. */
  ghost predicate Diverge(p: seq<string>, q: seq<string>) {
    exists k :: 0 <= k < |p| && k < |q| && p[k] != q[k]
  }

  lemma DivergeTail(p: seq<string>, q: seq<string>)
    requires Diverge(p, q) && p[0] == q[0]
    ensures Diverge(p[1..], q[1..])
  {
    var k :| 0 <= k < |p| && k < |q| && p[k] != q[k];
    assert p[1..][k - 1] != q[1..][k - 1];
  }

  /** Whether or not it succeeds, an upsert leaves the node at every diverging path as it was. */
  lemma {:induction false} UpsertFrame(m: Node, path: seq<string>, key: string, block: Option<Node>, force: bool,
                                       q: seq<string>)
    requires m.Mapping? && Diverge(path + [key], q)
    ensures At(Upsert(m, path, key, block, force).node, q) == At(m, q)
    decreases |path|
  {
    var p := path + [key];
    var m' := Upsert(m, path, key, block, force).node;
    if path == [] {
      assert p[0] == key && q[0] != key;
      if block.Some? {
        GetSet(m, key, block.value, q[0]);
      }
    } else {
      var next := Child(m, path[0]);
      if next.Mapping? {
        var next' := Upsert(next, path[1..], key, block, force).node;
        GetSet(m, path[0], next', q[0]);
        if q[0] == path[0] {
          DivergeTail(p, q);
          assert p[1..] == path[1..] + [key];
          UpsertFrame(next, path[1..], key, block, force, q[1..]);
          EmptyHasNothing(q[1..]);
        }
      }
    }
  }

  lemma EmptyHasNothing(q: seq<string>)
    ensures q != [] ==> At(EMPTY_MAPPING, q).None?
  {
  }

  /** On the way down every mapping keeps its keys in order and gains at most the next one, last. */
  lemma {:induction false} UpsertKeys(m: Node, path: seq<string>, key: string, block: Option<Node>, force: bool, k: nat)
    requires m.Mapping? && k <= |path| && At(m, path[..k]).Some?
    ensures var m' := Upsert(m, path, key, block, force).node;
            At(m', path[..k]).Some?
            && (Keys(At(m', path[..k]).value) == Keys(At(m, path[..k]).value)
                || Keys(At(m', path[..k]).value) == Keys(At(m, path[..k]).value) + [(path + [key])[k]])
    decreases |path|
  {
    if path == [] {
      if block.Some? {
        KeysSet(m, key, block.value);
      }
    } else {
      var next := Child(m, path[0]);
      if next.Mapping? {
        var next' := Upsert(next, path[1..], key, block, force).node;
        KeysSet(m, path[0], next');
        GetSet(m, path[0], next', path[0]);
        if k > 0 {
          assert path[..k][1..] == path[1..][..k - 1] && path[..k][0] == path[0];
          UpsertKeys(next, path[1..], key, block, force, k - 1);
          assert (path + [key])[k] == (path[1..] + [key])[k - 1];
        }
      }
    }
  }

  /** Repeating a forced upsert changes nothing more. */
  lemma {:induction false} UpsertIdempotent(m: Node, path: seq<string>, key: string, block: Option<Node>)
    requires m.Mapping?
    ensures var m' := Upsert(m, path, key, block, true).node;
            Upsert(m', path, key, block, true) == Upsert(m, path, key, block, true)
    decreases |path|
  {
    if path == [] {
      if block.Some? {
        SetSet(m, key, block.value, block.value);
      }
    } else {
      var next := Child(m, path[0]);
      if next.Mapping? {
        var next' := Upsert(next, path[1..], key, block, true).node;
        UpsertIdempotent(next, path[1..], key, block);
        GetSet(m, path[0], next', path[0]);
        SetSet(m, path[0], next', next');
      }
    }
  }

  // --- Key uniqueness ---

  ghost predicate Distinct(ks: seq<string>) {
    forall i, j :: 0 <= i < j < |ks| ==> ks[i] != ks[j]
  }

  /** No mapping of the tree has a key twice. */
  ghost predicate UniqueKeys(n: Node) {
    match n
    case Document(content) => forall i :: 0 <= i < |content| ==> UniqueKeys(content[i])
    case Mapping(entries) =>
      Distinct(Keys(n)) && forall i :: 0 <= i < |entries| ==> UniqueKeys(entries[i].key) && UniqueKeys(entries[i].value)
    case Sequence(items) => forall i :: 0 <= i < |items| ==> UniqueKeys(items[i])
    case _ => true
  }

  lemma UniqueSet(m: Node, key: string, v: Node)
    requires m.Mapping? && UniqueKeys(m) && UniqueKeys(v)
    ensures UniqueKeys(Set(m, key, v))
  {
    var m' := Set(m, key, v);
    KeysSet(m, key, v);
    assert Distinct(Keys(m')) by {
      if Get(m, key).None? {
        assert forall j :: 0 <= j < |m.entries| ==> Keys(m)[j] != key;
      }
    }
    forall i | 0 <= i < |m'.entries| ensures UniqueKeys(m'.entries[i].key) && UniqueKeys(m'.entries[i].value) {
      if i < |m.entries| {
        assert m'.entries[i] == m.entries[i] || m'.entries[i] == m.entries[i].(value := v);
      } else {
        assert m'.entries[i] == Entry(Scalar(key, "!!str"), v);
      }
    }
  }

  lemma {:induction false} UpsertUnique(m: Node, path: seq<string>, key: string, block: Option<Node>, force: bool)
    requires m.Mapping? && UniqueKeys(m) && (block.Some? ==> UniqueKeys(block.value))
    ensures UniqueKeys(Upsert(m, path, key, block, force).node)
    decreases |path|
  {
    if path == [] {
      if block.Some? {
        UniqueSet(m, key, block.value);
      }
    } else {
      var next := Child(m, path[0]);
      if next.Mapping? {
        UpsertUnique(next, path[1..], key, block, force);
        UniqueSet(m, path[0], Upsert(next, path[1..], key, block, force).node);
      }
    }
  }

  // --- Writing at a path ---

  /** The mapping at the path, or the empty one that would be created there. */
  function MappingAt(m: Node, path: seq<string>): Node {
    if At(m, path).Some? then At(m, path).value else EMPTY_MAPPING
  }

  /** The tree with n at the path. */
  function Put(m: Node, path: seq<string>, n: Node): Node
    requires Open(m, path)
    decreases |path|
  {
    if path == [] then n else Set(m, path[0], Put(Child(m, path[0]), path[1..], n))
  }

  lemma {:induction false} AtPut(m: Node, path: seq<string>, n: Node)
    requires Open(m, path)
    ensures At(Put(m, path, n), path) == Some(n)
    decreases |path|
  {
    if path != [] {
      var next := Child(m, path[0]);
      AtPut(next, path[1..], n);
      GetSet(m, path[0], Put(next, path[1..], n), path[0]);
    }
  }

  lemma {:induction false} PutSame(m: Node, path: seq<string>, n: Node)
    requires Open(m, path) && At(m, path) == Some(n)
    ensures Put(m, path, n) == m
    decreases |path|
  {
    if path != [] {
      PutSame(Get(m, path[0]).value, path[1..], n);
      SetSame(m, path[0]);
    }
  }

  lemma {:induction false} PutPut(m: Node, path: seq<string>, a: Node, b: Node)
    requires Open(m, path) && a.Mapping?
    ensures Open(Put(m, path, a), path) && Put(Put(m, path, a), path, b) == Put(m, path, b)
    decreases |path|
  {
    if path != [] {
      var next := Child(m, path[0]);
      PutPut(next, path[1..], a, b);
      GetSet(m, path[0], Put(next, path[1..], a), path[0]);
      SetSet(m, path[0], Put(next, path[1..], a), Put(next, path[1..], b));
    }
  }

  lemma {:induction false} PutFrame(m: Node, path: seq<string>, n: Node, q: seq<string>)
    requires Open(m, path) && Diverge(path, q)
    ensures At(Put(m, path, n), q) == At(m, q)
    decreases |path|
  {
    var next := Child(m, path[0]);
    GetSet(m, path[0], Put(next, path[1..], n), q[0]);
    if q[0] == path[0] {
      DivergeTail(path, q);
      PutFrame(next, path[1..], n, q[1..]);
      EmptyHasNothing(q[1..]);
    }
  }

  /** An accepted upsert below a path writes the upserted mapping at that path. */
  lemma {:induction false} UpsertIsPut(m: Node, path: seq<string>, q: seq<string>, key: string, block: Option<Node>,
                                       force: bool)
    requires m.Mapping? && Upsert(m, path + q, key, block, force).problem.None?
    ensures Open(m, path) && MappingAt(m, path).Mapping?
    ensures Upsert(MappingAt(m, path), q, key, block, force).problem.None?
    ensures Upsert(m, path + q, key, block, force).node ==
            Put(m, path, Upsert(MappingAt(m, path), q, key, block, force).node)
    decreases |path|
  {
    if path == [] {
      assert path + q == q;
    } else {
      assert (path + q)[1..] == path[1..] + q;
      var next := Child(m, path[0]);
      UpsertIsPut(next, path[1..], q, key, block, force);
      if Get(m, path[0]).None? {
        EmptyHasNothing(path[1..]);
      }
    }
  }

  // --- Removing ---

  /** Removes a mode from a server; a server left without modes goes too. */
  function Strike(servers: Node, id: string, key: string): Node {
    var srv := Get(servers, id);
    if srv.None? || !srv.value.Mapping? then servers
    else
      var srv' := Delete(srv.value, key);
      if srv'.entries == [] then Delete(servers, id) else Set(servers, id, srv')
  }

  function RemoveServer(m: Node, path: seq<string>, id: string, key: string): Node {
    if Open(m, path) && At(m, path).Some? then Put(m, path, Strike(At(m, path).value, id, key)) else m
  }

  function RemoveEntry(m: Node, path: seq<string>, name: string): Node {
    if Open(m, path) && At(m, path).Some? then Put(m, path, Delete(At(m, path).value, name)) else m
  }

  /** The server has no block for the mode yet, and its entry is not an empty mapping. */
  predicate Fresh(servers: Node, id: string, key: string) {
    var srv := Get(servers, id);
    srv.None? || (srv.value.Mapping? && srv.value.entries != [] && Get(srv.value, key).None?)
  }

  lemma StrikeUndoes(servers: Node, id: string, key: string, v: Node, force: bool)
    requires servers.Mapping? && Upsert(servers, [id], key, Some(v), force).problem.None?
    ensures Strike(Upsert(servers, [id], key, Some(v), force).node, id, key) == servers <==> Fresh(servers, id, key)
  {
    var srv := Child(servers, id);
    var srv1 := Set(srv, key, v);
    assert [id][1..] == [];
    assert Upsert(srv, [], key, Some(v), force).node == srv1;
    var after := Set(servers, id, srv1);
    GetSet(servers, id, srv1, id);
    DeleteSet(srv, key, v);
    DeleteSet(servers, id, srv1);
    var srv2 := Delete(srv1, key);
    SetSet(servers, id, srv1, srv2);
    GetSet(servers, id, srv2, id);
    if Get(servers, id).Some? {
      SetSame(servers, id);
    }
  }

  /** Removing a server's mode after adding it gives the servers mapping back exactly when the mode
      was new and the server's entry was absent or non-empty; and then, if the servers mapping was
      there to begin with, the whole tree. */
  lemma RemoveUndoes(m: Node, path: seq<string>, id: string, key: string, v: Node, force: bool)
    requires m.Mapping? && Upsert(m, path + [id], key, Some(v), force).problem.None?
    ensures var m' := RemoveServer(Upsert(m, path + [id], key, Some(v), force).node, path, id, key);
            && (At(m', path) == Some(MappingAt(m, path)) <==> Fresh(MappingAt(m, path), id, key))
            && (m' == m <==> Fresh(MappingAt(m, path), id, key) && At(m, path).Some?)
  {
    UpsertIsPut(m, path, [id], key, Some(v), force);
    var servers := MappingAt(m, path);
    var servers' := Upsert(servers, [id], key, Some(v), force).node;
    var struck := Strike(servers', id, key);
    AtPut(m, path, servers');
    PutPut(m, path, servers', struck);
    AtPut(m, path, struck);
    StrikeUndoes(servers, id, key, v, force);
    if struck == servers && At(m, path).Some? {
      PutSame(m, path, servers);
    }
  }

  /** The same for a service of a compose file: removing undoes adding iff the service was new. */
  lemma RemoveEntryUndoes(m: Node, path: seq<string>, name: string, v: Node, force: bool)
    requires m.Mapping? && Upsert(m, path, name, Some(v), force).problem.None?
    ensures var m' := RemoveEntry(Upsert(m, path, name, Some(v), force).node, path, name);
            && (At(m', path) == Some(MappingAt(m, path)) <==> Get(MappingAt(m, path), name).None?)
            && (m' == m <==> Get(MappingAt(m, path), name).None? && At(m, path).Some?)
  {
    assert path + [] == path;
    UpsertIsPut(m, path, [], name, Some(v), force);
    var services := MappingAt(m, path);
    var services' := Set(services, name, v);
    var cut := Delete(services', name);
    AtPut(m, path, services');
    PutPut(m, path, services', cut);
    AtPut(m, path, cut);
    DeleteSet(services, name, v);
    if cut == services && At(m, path).Some? {
      PutSame(m, path, services);
    }
  }

  /** With unique keys a deleted key is gone, and no other key is affected. */
  lemma GetDelete(m: Node, key: string, k: string)
    requires Distinct(Keys(m))
    ensures Get(Delete(m, key), k) == if k == key then None else Get(m, k)
  {
    if m.Mapping? && Get(m, key).Some? {
      var i := Find(m.entries, key, 0).value;
      if k == key {
        FindCutSame(m.entries, key, i) by {
          assert forall j :: 0 <= j < |m.entries| ==> Keys(m)[j] == Text(m.entries[j].key);
        }
      } else {
        FindCutOther(m.entries, k, i);
      }
    }
  }

  /** Cutting out the only entry with a key leaves none. */
  lemma FindCutSame(es: seq<Entry>, key: string, i: nat)
    requires i < |es| && forall j :: 0 <= j < |es| && j != i ==> Text(es[j].key) != key
    ensures Find(es[..i] + es[i + 1..], key, 0).None?
  {
    var cut := es[..i] + es[i + 1..];
    assert forall j :: 0 <= j < |cut| ==> cut[j] == es[if j < i then j else j + 1];
  }

  lemma FindIs(es: seq<Entry>, k: string, i: nat)
    requires i < |es| && Text(es[i].key) == k && forall j :: 0 <= j < i ==> Text(es[j].key) != k
    ensures Find(es, k, 0) == Some(i)
  {
    var f := Find(es, k, 0);
    assert f.Some? ==> f.value >= i;
  }

  /** Cutting out an entry with another key moves the first entry with this one at most. */
  lemma FindCutOther(es: seq<Entry>, k: string, i: nat)
    requires i < |es| && Text(es[i].key) != k
    ensures var f, cut := Find(es, k, 0), es[..i] + es[i + 1..];
            if f.None? then Find(cut, k, 0).None?
            else var j := if f.value < i then f.value else f.value - 1;
                 j < |cut| && Find(cut, k, 0) == Some(j) && cut[j] == es[f.value]
  {
    var f, cut := Find(es, k, 0), es[..i] + es[i + 1..];
    assert forall j :: 0 <= j < |cut| ==> cut[j] == es[if j < i then j else j + 1];
    if f.Some? {
      FindIs(cut, k, if f.value < i then f.value else f.value - 1);
    }
  }

  lemma {:induction false} UniqueAt(m: Node, path: seq<string>)
    requires UniqueKeys(m) && At(m, path).Some?
    ensures UniqueKeys(At(m, path).value)
    decreases |path|
  {
    if path != [] {
      UniqueAt(Get(m, path[0]).value, path[1..]);
    }
  }

  /** Below a node that is not a mapping there is nothing. */
  lemma {:induction false} ClosedPath(m: Node, p: seq<string>, q: seq<string>)
    requires !Open(m, p) && q != []
    ensures At(m, p + q).None?
    decreases |p|
  {
    if p == [] {
      assert p + q == q;
    } else {
      assert (p + q)[1..] == p[1..] + q;
      if Get(m, p[0]).Some? {
        ClosedPath(Get(m, p[0]).value, p[1..], q);
      }
    }
  }

  /** After a removal the mode is gone. */
  lemma RemoveLookup(m: Node, path: seq<string>, id: string, key: string)
    requires UniqueKeys(m)
    ensures At(RemoveServer(m, path, id, key), path + [id, key]).None?
  {
    var m' := RemoveServer(m, path, id, key);
    if !Open(m, path) {
      ClosedPath(m, path, [id, key]);
    } else {
      AtSplit(m', path, [id, key]);
      if At(m, path).Some? {
        var servers := At(m, path).value;
        UniqueAt(m, path);
        AtPut(m, path, Strike(servers, id, key));
        StrikeGone(servers, id, key);
      }
    }
  }

  lemma StrikeGone(servers: Node, id: string, key: string)
    requires UniqueKeys(servers)
    ensures At(Strike(servers, id, key), [id, key]).None?
  {
    assert [id, key][1..] == [key] && [key][1..] == [];
    var srv := Get(servers, id);
    if srv.Some? && srv.value.Mapping? {
      assert UniqueKeys(srv.value) by { UniqueAt(servers, [id]); }
      GetDelete(srv.value, key, key);
      GetDelete(servers, id, id);
      GetSet(servers, id, Delete(srv.value, key), id);
    }
  }

  lemma {:induction false} AtSplit(m: Node, p: seq<string>, q: seq<string>)
    ensures At(m, p + q) == if At(m, p).None? then None else At(At(m, p).value, q)
    decreases |p|
  {
    if p == [] {
      assert p + q == q;
    } else {
      assert (p + q)[1..] == p[1..] + q;
      if Get(m, p[0]).Some? {
        AtSplit(Get(m, p[0]).value, p[1..], q);
      }
    }
  }

  lemma RemoveFrame(m: Node, path: seq<string>, id: string, key: string, q: seq<string>)
    requires UniqueKeys(m) && Diverge(path + [id], q)
    ensures At(RemoveServer(m, path, id, key), q) == At(m, q)
  {
    if Open(m, path) && At(m, path).Some? {
      var servers := At(m, path).value;
      var struck := Strike(servers, id, key);
      if Diverge(path, q) {
        PutFrame(m, path, struck, q);
      } else {
        assert |q| > |path| && q[..|path|] == path && q[|path|] != id by {
          var k :| 0 <= k < |path + [id]| && k < |q| && (path + [id])[k] != q[k];
        }
        assert q == path + q[|path|..];
        AtPut(m, path, struck);
        AtSplit(m, path, q[|path|..]);
        AtSplit(Put(m, path, struck), path, q[|path|..]);
        UniqueAt(m, path);
        if Get(servers, id).Some? && Get(servers, id).value.Mapping? {
          GetSet(servers, id, Delete(Get(servers, id).value, key), q[|path|]);
          GetDelete(servers, id, q[|path|]);
        }
      }
    }
  }

  // --- The files ---

  datatype Mode = Local | DockerCompose | K8s | OtherMode

  function ModeKey(k: Mode): Option<string> {
    match k
    case Local => Some("local")
    case DockerCompose => Some("remote")
    case K8s => Some("remote")
    case OtherMode => None
  }

  lemma OneKey(m: Node, a: string)
    ensures At(m, [a]) == Get(m, a)
    ensures Open(m, [a]) <==> m.Mapping? && (Get(m, a).Some? ==> Get(m, a).value.Mapping?)
    ensures Open(m, [a]) ==> forall n :: Put(m, [a], n) == Set(m, a, n)
  {
    assert [a][1..] == [];
    if Get(m, a).Some? {
      assert At(m, [a]) == At(Get(m, a).value, []);
      assert Open(m, [a]) == (m.Mapping? && Open(Get(m, a).value, []));
    }
  }

  lemma TwoKeys(m: Node, a: string, b: string)
    ensures At(m, [a, b]) == if Get(m, a).Some? then Get(Get(m, a).value, b) else None
    ensures Open(m, [a, b]) <==> m.Mapping? && (Get(m, a).Some? ==> Open(Get(m, a).value, [b]))
    ensures Open(m, [a, b]) ==> forall n :: Put(m, [a, b], n) == Set(m, a, Set(Child(m, a), b, n))
    ensures Get(m, a).Some? ==>
              var x := Get(m, a).value;
              Open(x, [b]) <==> x.Mapping? && (Get(x, b).Some? ==> Get(x, b).value.Mapping?)
  {
    assert [a, b][1..] == [b];
    OneKey(Child(m, a), b);
  }

  const SERVERS_PATH := ["mcp_servers", "servers"]
  const SERVICES_PATH := ["services"]

  /** The top of the tree: an empty file becomes a document holding an empty mapping. */
  function Top(root: Node): (r: Node)
    requires root.Blank? || root.Document?
    ensures r.Document? && r.content != []
  {
    if root.Blank? || root.content == [] then Document([EMPTY_MAPPING]) else root
  }

  function UpsertRoot(root: Node, path: seq<string>, key: string, block: Option<Node>, force: bool): Outcome
    requires root.Blank? || root.Document?
  {
    var top := Top(root);
    if !top.content[0].Mapping? then Outcome(top, Some(NotMapping))
    else
      var o := Upsert(top.content[0], path, key, block, force);
      Outcome(Document(top.content[0 := o.node]), o.problem)
  }

  function RemoveServerRoot(root: Node, id: string, key: string): Node {
    if !root.Document? || root.content == [] then root
    else Document(root.content[0 := RemoveServer(root.content[0], SERVERS_PATH, id, key)])
  }

  function RemoveEntryRoot(root: Node, name: string): Node {
    if !root.Document? || root.content == [] then root
    else Document(root.content[0 := RemoveEntry(root.content[0], SERVICES_PATH, name)])
  }

  class YamlFile {
    var root: Node

    ghost predicate Valid() reads this {
      root.Blank? || root.Document?
    }

    constructor (n: Node)
      requires n.Blank? || n.Document?
      ensures Valid() && root == n
    {
      root := n;
    }

    method UpsertAt(path: seq<string>, key: string, block: Option<Node>, force: bool) returns (problem: Option<Problem>)
      requires Valid()
      modifies this
      ensures Valid() && Outcome(root, problem) == UpsertRoot(old(root), path, key, block, force)
    {
      if root.Blank? || root.content == [] {
        root := Document([EMPTY_MAPPING]);
      }
      if !root.content[0].Mapping? {
        return Some(NotMapping);
      }
      var doc;
      doc, problem := UpsertBelow(root.content[0], path, key, block, force);
      root := Document(root.content[0 := doc]);
    }

    method UpsertMcpServer(id: string, mode: Mode, block: Option<Node>, force: bool) returns (problem: Option<Problem>)
      requires Valid()
      modifies this
      ensures Valid()
      ensures ModeKey(mode).None? ==> problem == Some(BadMode) && root == old(root)
      ensures ModeKey(mode).Some? && id == "" ==> problem == Some(EmptyName) && root == old(root)
      ensures ModeKey(mode).Some? && id != "" ==>
                Outcome(root, problem) == UpsertRoot(old(root), SERVERS_PATH + [id], ModeKey(mode).value, block, force)
      ensures problem.None? ==>
                At(Doc(root), ["mcp_servers", "servers", id, if mode.Local? then "local" else "remote"]) == block
      ensures mode.OtherMode? ==> problem == Some(BadMode)
    {
      var key := ModeKey(mode);
      if key.None? {
        return Some(BadMode);
      }
      if id == "" {
        return Some(EmptyName);
      }
      problem := UpsertAt(SERVERS_PATH + [id], key.value, block, force);
      if problem.None? {
        UpsertLookup(Doc(old(root)), SERVERS_PATH + [id], key.value, block, force);
        assert SERVERS_PATH + [id] + [key.value] == ["mcp_servers", "servers", id, key.value];
      }
    }

    method UpsertComposeService(name: string, block: Option<Node>, force: bool) returns (problem: Option<Problem>)
      requires Valid()
      modifies this
      ensures Valid()
      ensures name == "" ==> problem == Some(EmptyName) && root == old(root)
      ensures name != "" ==> Outcome(root, problem) == UpsertRoot(old(root), SERVICES_PATH, name, block, force)
      ensures problem.None? ==> At(Doc(root), ["services", name]) == block
    {
      if name == "" {
        return Some(EmptyName);
      }
      problem := UpsertAt(SERVICES_PATH, name, block, force);
      if problem.None? {
        UpsertLookup(Doc(old(root)), SERVICES_PATH, name, block, force);
        assert SERVICES_PATH + [name] == ["services", name];
      }
    }

    method RemoveMcpServer(id: string, mode: Mode) returns (problem: Option<Problem>)
      requires Valid()
      modifies this
      ensures Valid()
      ensures ModeKey(mode).None? ==> problem == Some(BadMode) && root == old(root)
      ensures ModeKey(mode).Some? && id == "" ==> problem == Some(EmptyName) && root == old(root)
      ensures ModeKey(mode).Some? && id != "" ==>
                problem.None? && root == RemoveServerRoot(old(root), id, ModeKey(mode).value)
    {
      var key := ModeKey(mode);
      if key.None? {
        return Some(BadMode);
      }
      if id == "" {
        return Some(EmptyName);
      }
      problem := None;
      if root.Blank? || root.content == [] {
        return;
      }
      var doc := root.content[0];
      TwoKeys(doc, "mcp_servers", "servers");
      var outer := MappingGet(doc, "mcp_servers");
      if outer.None? {
        return;
      }
      var servers := MappingGet(outer.value, "servers");
      if servers.None? || !servers.value.Mapping? {
        return;
      }
      var srv := MappingGet(servers.value, id);
      if srv.None? || !srv.value.Mapping? {
        PutSame(doc, SERVERS_PATH, servers.value);
        return;
      }
      var servers', removed;
      var srv', _ := MappingDelete(srv.value, key.value);
      if srv'.entries == [] {
        servers', removed := MappingDelete(servers.value, id);
      } else {
        servers' := MappingSet(servers.value, id, srv');
      }
      var outer' := MappingSet(outer.value, "servers", servers');
      var doc' := MappingSet(doc, "mcp_servers", outer');
      root := Document(root.content[0 := doc']);
    }

    method RemoveComposeService(name: string) returns (problem: Option<Problem>)
      requires Valid()
      modifies this
      ensures Valid()
      ensures name == "" ==> problem == Some(EmptyName) && root == old(root)
      ensures name != "" ==> problem.None? && root == RemoveEntryRoot(old(root), name)
    {
      if name == "" {
        return Some(EmptyName);
      }
      problem := None;
      if root.Blank? || root.content == [] {
        return;
      }
      var doc := root.content[0];
      OneKey(doc, "services");
      var services := MappingGet(doc, "services");
      if services.None? || !services.value.Mapping? {
        return;
      }
      var services', _ := MappingDelete(services.value, name);
      var doc' := MappingSet(doc, "services", services');
      root := Document(root.content[0 := doc']);
    }
  }

  /** Descends to the mapping at the path, creating what is missing, and sets the key there. */
  method UpsertBelow(m: Node, path: seq<string>, key: string, block: Option<Node>, force: bool)
    returns (m': Node, problem: Option<Problem>)
    requires m.Mapping?
    ensures Outcome(m', problem) == Upsert(m, path, key, block, force)
    decreases |path|
  {
    m' := m;
    if path != [] {
      var next := MappingGet(m, path[0]);
      if next.Some? && !next.value.Mapping? {
        return m, Some(NotMapping);
      }
      var child;
      child, problem := UpsertBelow(if next.Some? then next.value else EMPTY_MAPPING, path[1..], key, block, force);
      m' := MappingSet(m, path[0], child);
      return;
    }
    var existing := MappingGet(m, key);
    if existing.Some? && !force {
      return m, Some(Exists);
    }
    if block.None? {
      return m, Some(BadBlock);
    }
    m' := MappingSet(m, key, block.value);
    problem := None;
  }

  // --- Whole files ---

  function Doc(root: Node): Node
    requires root.Blank? || root.Document?
  {
    Top(root).content[0]
  }

  /** Adding a server to a file: when it succeeds the server's mode holds the block, every path that
      diverges from it is as it was, no key was doubled, and removing it again gives the same servers
      mapping iff the mode was new and the server absent or non-empty. */
  lemma AddThenRemove(root: Node, id: string, key: string, v: Node, force: bool, q: seq<string>)
    requires root.Blank? || root.Document?
    requires UpsertRoot(root, SERVERS_PATH + [id], key, Some(v), force).problem.None?
    ensures var added := UpsertRoot(root, SERVERS_PATH + [id], key, Some(v), force).node;
            var removed := RemoveServerRoot(added, id, key);
            && At(Doc(added), SERVERS_PATH + [id] + [key]) == Some(v)
            && (Diverge(SERVERS_PATH + [id] + [key], q) ==> At(Doc(added), q) == At(Doc(root), q))
            && (UniqueKeys(Doc(root)) && UniqueKeys(v) ==> UniqueKeys(Doc(added)))
            && (At(Doc(removed), SERVERS_PATH) == Some(MappingAt(Doc(root), SERVERS_PATH))
                <==> Fresh(MappingAt(Doc(root), SERVERS_PATH), id, key))
            && (removed == root <==>
                At(Doc(root), SERVERS_PATH).Some? && root.Document? && root.content != []
                && Fresh(MappingAt(Doc(root), SERVERS_PATH), id, key))
  {
    var path := SERVERS_PATH + [id];
    UpsertLookup(Doc(root), path, key, Some(v), force);
    if Diverge(path + [key], q) {
      UpsertFrame(Doc(root), path, key, Some(v), force, q);
    }
    if UniqueKeys(Doc(root)) && UniqueKeys(v) {
      UpsertUnique(Doc(root), path, key, Some(v), force);
    }
    RemoveUndoes(Doc(root), SERVERS_PATH, id, key, v, force);
  }

  /** Removing a server's mode from a file with unique keys leaves nothing at its place, and the blocks of its
      other mode and of other servers as they were. */
  lemma RemovedFromFile(root: Node, id: string, mode: Mode, q: seq<string>)
    requires root.Document? && root.content != [] && UniqueKeys(Doc(root)) && !mode.OtherMode?
    ensures var key := if mode.Local? then "local" else "remote";
            var root' := RemoveServerRoot(root, id, key);
            && ModeKey(mode) == Some(key)
            && At(root'.content[0], ["mcp_servers", "servers", id, key]).None?
            && (Diverge(["mcp_servers", "servers", id], q) ==> At(root'.content[0], q) == At(Doc(root), q))
  {
    var key := if mode.Local? then "local" else "remote";
    RemoveLookup(Doc(root), SERVERS_PATH, id, key);
    assert SERVERS_PATH + [id, key] == ["mcp_servers", "servers", id, key];
    assert SERVERS_PATH + [id] == ["mcp_servers", "servers", id];
    if Diverge(["mcp_servers", "servers", id], q) {
      RemoveFrame(Doc(root), SERVERS_PATH, id, key, q);
    }
  }

  lemma ServiceRemovedFromFile(root: Node, name: string)
    requires root.Document? && root.content != [] && UniqueKeys(Doc(root))
    ensures At(RemoveEntryRoot(root, name).content[0], ["services", name]).None?
  {
    var m := Doc(root);
    OneKey(m, "services");
    assert ["services", name][1..] == [name] && [name][1..] == [];
    var services := Get(m, "services");
    if services.Some? && services.value.Mapping? && m.Mapping? {
      UniqueAt(m, ["services"]);
      GetDelete(services.value, name, name);
      GetSet(m, "services", Delete(services.value, name), "services");
    }
  }
}
