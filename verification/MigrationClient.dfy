/** The migration as the program runs it: statements against a mutable graph, with its loops. */
module MigrationClient {
  import opened PropertyGraph
  import opened Migration
  import opened MigrationTheorems
  import opened MigrationIdempotence

  const BATCH := 10
  const PASSES := 100

  lemma RemoveTwice(g: Graph, l: Label, kept: set<nat>, kept': set<nat>)
    requires kept' <= kept
    ensures RemoveLabel(RemoveLabel(g, l, kept), l, kept') == RemoveLabel(g, l, kept')
  {
    var a, b := RemoveLabel(RemoveLabel(g, l, kept), l, kept'), RemoveLabel(g, l, kept');
    forall x | x in g.nodes ensures a.nodes[x] == b.nodes[x] {
      assert g.nodes[x].labels - {l} - {l} == g.nodes[x].labels - {l};
    }
    assert a.nodes == b.nodes;
  }

  lemma RemoveNone(g: Graph, l: Label)
    ensures RemoveLabel(g, l, Labelled(g, l)) == g
  {
    var g' := RemoveLabel(g, l, Labelled(g, l));
    forall x | x in g.nodes ensures g'.nodes[x] == g.nodes[x] {
      assert x in Labelled(g, l) <==> l in g.nodes[x].labels;
    }
    assert g'.nodes == g.nodes;
  }

  lemma RemoveLeaves(g: Graph, l: Label, kept: set<nat>)
    requires kept <= Labelled(g, l)
    ensures Labelled(RemoveLabel(g, l, kept), l) == kept
  {
  }

  /** How many nodes keep a label: none if a full REMOVE works, else what 100 batches of 10 miss. */
  function LeftOver(n: nat, fullRemoveWorks: bool): nat {
    if fullRemoveWorks || n <= PASSES * BATCH then 0 else n - PASSES * BATCH
  }

  /** The rows of a query, in an order of the database's choosing. */
  method Enumerate(s: set<nat>) returns (order: seq<nat>)
    ensures Enumerates(order, s)
  {
    order := [];
    var todo := s;
    while todo != {}
      invariant todo <= s && forall x :: x in order <==> x in s && x !in todo
      decreases todo
    {
      var x :| x in todo;
      order := order + [x];
      todo := todo - {x};
    }
  }

  class GraphClient {
    var g: Graph
    /** False on database versions whose REMOVE over many nodes silently does nothing. */
    const fullRemoveWorks: bool

    constructor (g0: Graph, works: bool)
      ensures g == g0 && fullRemoveWorks == works
    {
      g, fullRemoveWorks := g0, works;
    }

    /** `MATCH (n:l) WITH n LIMIT 10 REMOVE n:l`: at most ten nodes, of the database's choosing. */
    method RemoveBatch(l: Label) returns (ghost left: set<nat>)
      modifies this
      ensures left <= Labelled(old(g), l) && g == RemoveLabel(old(g), l, left)
      ensures var n := |Labelled(old(g), l)|; |left| == if n <= BATCH then 0 else n - BATCH
    {
      var todo := Labelled(g, l);
      var n := 0;
      while todo != {} && n < BATCH
        invariant todo <= Labelled(g, l) && n <= BATCH && |todo| + n == |Labelled(g, l)|
        decreases todo
      {
        var x :| x in todo;
        todo := todo - {x};
        n := n + 1;
      }
      left := todo;
      g := RemoveLabel(g, l, todo);
    }

    method CountNodes(l: Label) returns (n: nat)
      ensures n == |Labelled(g, l)|
    {
      n := |Labelled(g, l)|;
    }

    /** Removes the label everywhere when a full REMOVE works; otherwise the fallback leaves exactly
        max(0, n - 1000) labelled nodes. */
    method BatchRemoveLabel(l: Label) returns (ghost kept: set<nat>)
      modifies this
      ensures kept <= Labelled(old(g), l) && g == RemoveLabel(old(g), l, kept)
      ensures Labelled(g, l) == kept && |kept| == LeftOver(|Labelled(old(g), l)|, fullRemoveWorks)
    {
      ghost var g0, n := g, |Labelled(g, l)|;
      kept := Labelled(g, l);
      if fullRemoveWorks {
        g := RemoveLabel(g, l, {});
        kept := {};
      }
      RemoveNone(g0, l);
      RemoveLeaves(g0, l, kept);
      for i := 0 to PASSES
        invariant kept <= Labelled(g0, l) && g == RemoveLabel(g0, l, kept) && Labelled(g, l) == kept
        invariant |kept| == if fullRemoveWorks || n <= i * BATCH then 0 else n - i * BATCH
      {
        var count := CountNodes(l);
        if count == 0 {
          return;
        }
        ghost var left := RemoveBatch(l);
        RemoveTwice(g0, l, kept, left);
        kept := left;
        RemoveLeaves(g0, l, kept);
      }
    }

    method RenameLabels(l: Label, was: string, into: Label, now: string) returns (ghost kept: set<nat>)
      requires l != into
      modifies this
      ensures g == RenameLabel(old(g), l, was, into, kept, now)
      ensures kept <= Labelled(old(g), l) && |kept| == LeftOver(|Labelled(old(g), l)|, fullRemoveWorks)
    {
      var count := CountNodes(l);
      kept := {};
      if count == 0 {
        return;
      }
      ghost var g0 := g;
      g := AddLabel(g, l, was, into, now);
      assert Labelled(g, l) == Labelled(g0, l);
      kept := BatchRemoveLabel(l);
    }

    method SplitDataSources(now: string) returns (ghost order: seq<nat>)
      modifies this
      ensures Enumerates(order, Labelled(old(g), DataSource)) && g == Split(old(g), order, now)
    {
      ghost var g0 := g;
      var nodes := g.nodes;
      var ids := Enumerate(Labelled(g, DataSource));
      order := ids;
      if ids == [] {
        return;
      }
      ghost var rs := Records(g0, order);
      for i := 0 to |ids|
        invariant SplitAll(g0, rs, now) == SplitAll(g, rs[i..], now)
      {
        assert ids[i] in ids;
        var r := RecordOf(nodes[ids[i]]);
        assert rs[i..][0] == r && rs[i..][1..] == rs[i + 1..];
        g := SplitOne(g, r, now);
      }
      g := DetachDelete(g, Labelled(g, DataSource));
    }

    /** Cleans the rows of the query result one after the other. */
    method CleanNames(names: seq<string>, now: string)
      modifies this
      ensures g == CleanAll(old(g), names, now)
    {
      for i := 0 to |names|
        invariant CleanAll(old(g), names, now) == CleanAll(g, names[i..], now)
      {
        assert names[i..][1..] == names[i + 1..];
        g := CleanOne(g, names[i], now);
      }
    }

    method CleanupHyphenatedNames(now: string) returns (ghost order: seq<nat>)
      modifies this
      ensures Enumerates(order, set x | x in old(g).nodes && Eligible(old(g), x))
      ensures g == CleanAll(old(g), NamesOf(old(g), order), now)
    {
      var ids := Enumerate(set x | x in g.nodes && Eligible(g, x));
      order := ids;
      var names := NamesOf(g, ids);
      CleanNames(names, now);
    }

    /** All six steps in order; the ghost result records what the database chose. */
    method MigrateGraph(now: string) returns (ghost c: Choices)
      modifies this
      ensures Migrates(old(g), g, c, now)
      ensures |c.keptTools| == LeftOver(|Labelled(old(g), MCPSource)|, fullRemoveWorks)
      ensures |c.keptDomains| == LeftOver(|Labelled(old(g), LogSource)|, fullRemoveWorks)
    {
      ghost var keptTools := RenameLabels(MCPSource, "MCPSource", MCPTool, now);
      OtherLabelsStay(old(g), keptTools, now);
      ghost var keptDomains := RenameLabels(LogSource, "LogSource", DomainSource, now);
      ghost var sources := SplitDataSources(now);
      g := CollapseToolRefs(g);
      ghost var tools := CleanupHyphenatedNames(now);
      c := Choices(keptTools, keptDomains, sources, tools);
      g := Backfill(g, MCPTool, now);
      g := Backfill(g, MCPServer, now);
    }

    /** Where a full REMOVE works, running the migration again changes nothing: two runs are one. */
    method MigrateTwice(now: string, later: string) returns (ghost c: Choices)
      requires fullRemoveWorks
      modifies this
      ensures Migrates(old(g), g, c, now) && Settled(g)
    {
      c := MigrateGraph(now);
      ghost var g1 := g;
      MigrationSettles(old(g), g1, c, now);
      ghost var c' := MigrateGraph(later);
      MigrationIdempotent(old(g), g1, g, c, c', now, later);
    }

    /** Repeated runs: each takes up to a thousand labels of either kind more (all of them where a full
        REMOVE works), and from the first run after which none can be left the graph is settled, so
        that every further run changes nothing. */
    method MigrateRepeatedly(times: seq<string>)
      modifies this
      ensures |Labelled(g, MCPSource)| <= Remaining(|Labelled(old(g), MCPSource)|, |times|, fullRemoveWorks)
      ensures |Labelled(g, LogSource)| <= Remaining(|Labelled(old(g), LogSource)|, |times|, fullRemoveWorks)
      ensures (&& times != [] && Remaining(|Labelled(old(g), MCPSource)|, |times|, fullRemoveWorks) == 0
               && Remaining(|Labelled(old(g), LogSource)|, |times|, fullRemoveWorks) == 0) ==> Settled(g)
    {
      ghost var tools, domains := |Labelled(g, MCPSource)|, |Labelled(g, LogSource)|;
      for i := 0 to |times|
        invariant |Labelled(g, MCPSource)| <= Remaining(tools, i, fullRemoveWorks)
        invariant |Labelled(g, LogSource)| <= Remaining(domains, i, fullRemoveWorks)
        invariant (&& i > 0 && Remaining(tools, i, fullRemoveWorks) == 0
                   && Remaining(domains, i, fullRemoveWorks) == 0) ==> Settled(g)
      {
        ghost var g0 := g;
        ghost var c := MigrateGraph(times[i]);
        RunLeaves(g0, g, c, times[i], Remaining(tools, i, fullRemoveWorks), Remaining(domains, i, fullRemoveWorks),
                  fullRemoveWorks);
      }
    }
  }

  /** What may still have a legacy label after some runs, of n nodes. */
  function Remaining(n: nat, runs: nat, fullRemoveWorks: bool): nat {
    if runs == 0 then n else LeftOver(Remaining(n, runs - 1, fullRemoveWorks), fullRemoveWorks)
  }

  /** Every run takes a thousand labels when the full REMOVE does nothing, and all when it works. */
  lemma {:induction false} RemainingIs(n: nat, runs: nat, works: bool)
    ensures Remaining(n, runs, works) ==
            if runs == 0 then n else if works || n <= 1000 * runs then 0 else n - 1000 * runs
  {
    if runs > 0 {
      RemainingIs(n, runs - 1, works);
    }
  }

  lemma {:induction false} SubsetSize(a: set<nat>, b: set<nat>)
    requires a <= b
    ensures |a| <= |b|
  {
    if a != {} {
      var x :| x in a;
      SubsetSize(a - {x}, b - {x});
    }
  }

  /** One more run, seen from the counts. */
  lemma RunLeaves(g: Graph, g': Graph, c: Choices, now: string, tools: nat, domains: nat, works: bool)
    requires Migrates(g, g', c, now) && |Labelled(g, MCPSource)| <= tools && |Labelled(g, LogSource)| <= domains
    requires |c.keptTools| == LeftOver(|Labelled(g, MCPSource)|, works)
    requires |c.keptDomains| == LeftOver(|Labelled(g, LogSource)|, works)
    ensures |Labelled(g', MCPSource)| <= LeftOver(tools, works) && |Labelled(g', LogSource)| <= LeftOver(domains, works)
    ensures LeftOver(tools, works) == 0 && LeftOver(domains, works) == 0 ==> Settled(g')
  {
    LabelsLeft(g, g', c, now);
    SubsetSize(Labelled(g', MCPSource), c.keptTools);
    SubsetSize(Labelled(g', LogSource), c.keptDomains);
    if LeftOver(tools, works) == 0 && LeftOver(domains, works) == 0 {
      MigrationSettles(g, g', c, now);
    }
  }

  /** Renaming one label leaves the other legacy label where it was. */
  lemma OtherLabelsStay(g: Graph, kept: set<nat>, now: string)
    ensures Labelled(RenameLabel(g, MCPSource, "MCPSource", MCPTool, kept, now), LogSource) == Labelled(g, LogSource)
  {
    RenameFacts(g, MCPSource, "MCPSource", MCPTool, kept, now);
    var g' := RenameLabel(g, MCPSource, "MCPSource", MCPTool, kept, now);
    forall x | x in g.nodes ensures LogSource in g'.nodes[x].labels <==> LogSource in g.nodes[x].labels {
      assert RelabelledNode(g.nodes[x], g'.nodes[x], MCPSource, MCPTool);
    }
  }
}
