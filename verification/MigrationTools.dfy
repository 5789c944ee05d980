/** What the migration does to tools: names, deletion on conflict, and the fields and strategies
    attached to them. */
module MigrationTools {
  import opened PropertyGraph
  import opened Strings
  import opened Migration
  import opened MigrationPaths

  // --- Names ---

  lemma DottedFacts(name: string)
    requires Hyphenated(name)
    ensures '.' in Dotted(name) && Dotted(name) != name && !Hyphenated(Dotted(name)) && name != ""
  {
    var k := IndexOf(name, '-');
    assert Dotted(name)[k] == '.';
  }

  lemma DotPosition(name: string)
    requires Hyphenated(name)
    ensures IndexOf(Dotted(name), '.') == IndexOf(name, '-')
  {
    var k, d := IndexOf(name, '-'), Dotted(name);
    assert d[..k] == name[..k];
    assert forall c :: c in name[..k] ==> c in name;
    IndexOfIs(d, '.', k);
  }

  lemma Undotted(name: string, d: string, k: nat)
    requires Hyphenated(name) && Dotted(name) == d && IndexOf(name, '-') == k
    ensures k < |d| && name == d[..k] + "-" + d[k + 1..]
  {
    assert name == name[..k] + [name[k]] + name[k + 1..];
    assert d[..k] == name[..k] && d[k + 1..] == name[k + 1..];
  }

  /** The dot of a dotted name marks where the hyphen was, so two names never collide. */
  lemma DottedInjective(a: string, b: string)
    requires Hyphenated(a) && Hyphenated(b) && Dotted(a) == Dotted(b)
    ensures a == b
  {
    DotPosition(a);
    DotPosition(b);
    Undotted(a, Dotted(a), IndexOf(a, '-'));
    Undotted(b, Dotted(a), IndexOf(a, '-'));
  }

  predicate AllHyphenated(names: seq<string>) {
    forall i :: 0 <= i < |names| ==> Hyphenated(names[i])
  }

  // --- One iteration of the cleanup loop ---

  /** Deleted exactly on a conflict; renamed when its name is the one being cleaned. */
  lemma CleanOneNodes(g: Graph, was: string, now: string)
    requires Hyphenated(was)
    ensures var g' := CleanOne(g, was, now);
            && (forall x :: x in g'.nodes <==>
                x in g.nodes && !(Taken(g, Dotted(was)) && Matches(g, x, MCPTool, Name, was)))
            && (forall x :: x in g'.nodes ==>
                  g'.nodes[x] ==
                  if Matches(g, x, MCPTool, Name, was) then Renamed(g.nodes[x], was, Dotted(was), now) else g.nodes[x])
  {
    DottedFacts(was);
  }

  lemma CleanOneSound(g: Graph, was: string, now: string)
    requires Sound(g) && Hyphenated(was)
    ensures Sound(CleanOne(g, was, now))
  {
    CleanOneNodes(g, was, now);
  }

  /** Only RETURNS_FIELD edges and the edges of deleted nodes can go. */
  lemma CleanOneEdges(g: Graph, was: string, now: string, e: Edge)
    requires Hyphenated(was) && e in g.edges && e.typ != ReturnsField
    requires e.src in CleanOne(g, was, now).nodes && e.dst in CleanOne(g, was, now).nodes
    ensures e in CleanOne(g, was, now).edges
  {
    DottedFacts(was);
  }

  /** Cleaning one name neither takes nor frees the dotted form of another. */
  lemma TakenStable(g: Graph, was: string, now: string, other: string)
    requires Hyphenated(was) && Hyphenated(other) && was != other
    ensures Taken(CleanOne(g, was, now), Dotted(other)) <==> Taken(g, Dotted(other))
  {
    var g' := CleanOne(g, was, now);
    CleanOneNodes(g, was, now);
    DottedFacts(was);
    DottedFacts(other);
    if Dotted(was) == Dotted(other) {
      DottedInjective(was, other);
    }
    forall x ensures Matches(g', x, MCPTool, Name, Dotted(other)) <==> Matches(g, x, MCPTool, Name, Dotted(other)) {
    }
    assert Matching(g', MCPTool, Name, Dotted(other)) == Matching(g, MCPTool, Name, Dotted(other));
  }

  // --- The cleanup loop ---

  lemma {:induction false} CleanAllShrinks(g: Graph, names: seq<string>, now: string)
    requires AllHyphenated(names)
    ensures forall x :: x in CleanAll(g, names, now).nodes ==> x in g.nodes
    decreases |names|
  {
    if names != [] {
      CleanOneNodes(g, names[0], now);
      CleanAllShrinks(CleanOne(g, names[0], now), names[1..], now);
    }
  }

  /** A node that is not a tool with one of the names is left exactly as it was. */
  lemma {:induction false} CleanAllLeaves(g: Graph, names: seq<string>, now: string, x: nat)
    requires AllHyphenated(names) && x in g.nodes
    requires forall i :: 0 <= i < |names| ==> !Matches(g, x, MCPTool, Name, names[i])
    ensures x in CleanAll(g, names, now).nodes && CleanAll(g, names, now).nodes[x] == g.nodes[x]
    decreases |names|
  {
    if names != [] {
      CleanOneNodes(g, names[0], now);
      CleanAllLeaves(CleanOne(g, names[0], now), names[1..], now, x);
    }
  }

  /** A tool survives the cleanup if and only if its name is not cleaned or the dotted form is free;
      then it carries the dotted name if its name was cleaned, and its old name otherwise. */
  lemma {:induction false} ToolFate(g: Graph, names: seq<string>, now: string, m: nat, nm: string)
    requires AllHyphenated(names) && Matches(g, m, MCPTool, Name, nm)
    ensures var g' := CleanAll(g, names, now);
            && (m in g'.nodes <==> !(nm in names && Taken(g, Dotted(nm))))
            && (m in g'.nodes ==> Matches(g', m, MCPTool, Name, if nm in names then Dotted(nm) else nm))
            && (m in g'.nodes ==> g'.nodes[m].labels == g.nodes[m].labels)
    decreases |names|
  {
    if nm !in names {
      forall i | 0 <= i < |names| ensures !Matches(g, m, MCPTool, Name, names[i]) {
        assert names[i] in names;
      }
      CleanAllLeaves(g, names, now, m);
    } else {
      var g1 := CleanOne(g, names[0], now);
      CleanOneNodes(g, names[0], now);
      if names[0] != nm {
        assert nm in names[1..];
        TakenStable(g, names[0], now, nm);
        ToolFate(g1, names[1..], now, m, nm);
      } else if Taken(g, Dotted(nm)) {
        CleanAllShrinks(g1, names[1..], now);
      } else {
        RenamedStays(g1, names[1..], now, m, nm);
      }
    }
  }

  lemma RenamedStays(g: Graph, names: seq<string>, now: string, m: nat, nm: string)
    requires AllHyphenated(names) && Hyphenated(nm) && Matches(g, m, MCPTool, Name, Dotted(nm))
    ensures m in CleanAll(g, names, now).nodes && CleanAll(g, names, now).nodes[m] == g.nodes[m]
  {
    DottedFacts(nm);
    forall i | 0 <= i < |names| ensures !Matches(g, m, MCPTool, Name, names[i]) {
      assert Hyphenated(names[i]);
    }
    CleanAllLeaves(g, names, now, m);
  }

  lemma CleanOneKeepsPath(g: Graph, was: string, now: string, l: nat, store: nat, server: nat, m: nat, k: string)
    requires Sound(g) && Hyphenated(was) && NewPath(g, l, store, server, m, k) && m in CleanOne(g, was, now).nodes
    ensures NewPath(CleanOne(g, was, now), l, store, server, m, k)
  {
    CleanOneNodes(g, was, now);
    NotBoth(g, l, DomainSource, MCPTool);
    NotBoth(g, store, DataStore, MCPTool);
    NotBoth(g, server, MCPServer, MCPTool);
    CleanOneEdges(g, was, now, Edge(l, StoredIn, store));
    CleanOneEdges(g, was, now, Edge(store, QueryableVia, server));
    CleanOneEdges(g, was, now, Edge(server, Provides, m));
  }

  /** A path stays intact through the cleanup as long as its tool does. */
  lemma {:induction false} CleanAllKeepsPath(g: Graph, names: seq<string>, now: string, l: nat, store: nat,
                                             server: nat, m: nat, k: string)
    requires Sound(g) && AllHyphenated(names) && NewPath(g, l, store, server, m, k)
    requires m in CleanAll(g, names, now).nodes
    ensures NewPath(CleanAll(g, names, now), l, store, server, m, k)
    decreases |names|
  {
    if names != [] {
      var g1 := CleanOne(g, names[0], now);
      CleanAllShrinks(g1, names[1..], now);
      CleanOneSound(g, names[0], now);
      CleanOneKeepsPath(g, names[0], now, l, store, server, m, k);
      CleanAllKeepsPath(g1, names[1..], now, l, store, server, m, k);
    }
  }

  // --- Fields ---

  /** Some tool that m has become, or whose name m took, returns the field. */
  ghost predicate Returns(g: Graph, t: nat, f: nat) {
    IsA(g, t, MCPTool) && IsA(g, f, MCPField) && Edge(t, ReturnsField, f) in g.edges
  }

  lemma FieldKept(g: Graph, was: string, now: string, t: nat, f: nat)
    requires Sound(g) && Hyphenated(was) && Returns(g, t, f) && !Matches(g, t, MCPTool, Name, was)
    ensures Returns(CleanOne(g, was, now), t, f)
  {
    CleanOneNodes(g, was, now);
    NotBoth(g, f, MCPField, MCPTool);
    DottedFacts(was);
  }

  lemma FieldRenamed(g: Graph, was: string, now: string, t: nat, f: nat)
    requires Sound(g) && Hyphenated(was) && Returns(g, t, f) && !Taken(g, Dotted(was))
    ensures Returns(CleanOne(g, was, now), t, f)
  {
    CleanOneNodes(g, was, now);
    DottedFacts(was);
  }

  lemma FieldMoved(g: Graph, was: string, into: string, e: Edge, heir: nat)
    requires e in g.edges && FieldEdge(g, e, was) && Matches(g, heir, MCPTool, Name, into)
    ensures Edge(heir, ReturnsField, e.dst) in MoveFields(g, was, into).edges
  {
    var fields := set e | e in g.edges && FieldEdge(g, e, was);
    assert e in fields && heir in Matching(g, MCPTool, Name, into);
  }

  lemma FieldInherited(g: Graph, was: string, now: string, t: nat, f: nat, heir: nat)
    requires Sound(g) && Hyphenated(was) && Returns(g, t, f) && Matches(g, t, MCPTool, Name, was)
    requires Matches(g, heir, MCPTool, Name, Dotted(was))
    ensures Returns(CleanOne(g, was, now), heir, f)
  {
    CleanOneNodes(g, was, now);
    NotBoth(g, f, MCPField, MCPTool);
    DottedFacts(was);
    FieldMoved(g, was, Dotted(was), Edge(t, ReturnsField, f), heir);
  }

  /** No field is lost to the cleanup: the tool keeps it, or the tool already holding the dotted name
      inherits it. */
  lemma {:induction false} FieldsSurvive(g: Graph, names: seq<string>, now: string, t: nat, nm: string, f: nat)
    returns (t': nat)
    requires Sound(g) && AllHyphenated(names) && Returns(g, t, f) && Matches(g, t, MCPTool, Name, nm)
    ensures var g' := CleanAll(g, names, now);
            && Returns(g', t', f)
            && Matches(g', t', MCPTool, Name, if nm in names then Dotted(nm) else nm)
    ensures nm !in names ==> t' == t
    decreases |names|
  {
    t' := t;
    if names != [] {
      var g1, rest := CleanOne(g, names[0], now), names[1..];
      CleanOneNodes(g, names[0], now);
      CleanOneSound(g, names[0], now);
      if names[0] != nm {
        FieldKept(g, names[0], now, t, f);
        t' := FieldsSurvive(g1, rest, now, t, nm, f);
      } else {
        DottedFacts(nm);
        assert Dotted(nm) !in rest;
        if Taken(g, Dotted(nm)) {
          var heir :| heir in Matching(g, MCPTool, Name, Dotted(nm));
          FieldInherited(g, nm, now, t, f, heir);
          t' := FieldsSurvive(g1, rest, now, heir, Dotted(nm), f);
        } else {
          FieldRenamed(g, nm, now, t, f);
          t' := FieldsSurvive(g1, rest, now, t, Dotted(nm), f);
        }
      }
    }
  }
}
