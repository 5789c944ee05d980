/** Concurrent builds of the visible set, interleaved with any change of the catalog, the policies,
    the registry and the scopes (internal/gateway/gateway.go). */
module Visibility {
  import opened EventTypes
  import opened Catalog
  import opened Gateway

  /** A build between its two critical sections. */
  datatype Phase = Reading | Ready(visible: VisibleMap, reply: Option<seq<RegistryTool>>)

  /** A publication: its build, the registry's reply to it, and how many builds had started by then. */
  datatype Publication = Publication(gen: nat, reply: Option<seq<RegistryTool>>, startedThen: nat)

  /** `started` and `published` record the whole run; started[g - 1] is the snapshot of build g. */
  datatype State = State(
    gen: nat,
    catalog: Entries,
    policies: Policies,
    hasStore: bool,
    scopes: Scopes,
    visible: Option<VisibleMap>,
    running: map<nat, Phase>,
    started: seq<Build>,
    published: seq<Publication>
  )

  datatype Step =
    | SetCatalog(catalog: Entries)
    | SetPolicies(policies: Policies)
    | SetStore(attached: bool)
    | AddScope(agent: string, allowed: seq<string>, expires: int)
    | DropScope(agent: string)
    | Start
    | Read(gen: nat, reply: Option<seq<RegistryTool>>)
    | Publish(gen: nat)

  const INIT := State(0, map[], map[], false, map[], None, map[], [], [])

  predicate Enabled(s: State, step: Step) {
    match step
    case Read(g, _) => 0 < g <= |s.started| && g in s.running && s.running[g].Reading?
    case Publish(g) => g in s.running && s.running[g].Ready?
    case _ => true
  }

  function Apply(s: State, step: Step): State
    requires Enabled(s, step)
  {
    match step
    case SetCatalog(c) => s.(catalog := c)
    case SetPolicies(p) => s.(policies := p)
    case SetStore(b) => s.(hasStore := b)
    case AddScope(agent, allowed, expires) => s.(scopes := Scoped(s.scopes, agent, allowed, expires))
    case DropScope(agent) => s.(scopes := s.scopes - {agent})
    case Start =>
      var g := s.gen + 1;
      s.(gen := g, running := s.running[g := Reading],
         started := s.started + [Build(g, s.policies, s.hasStore, s.catalog)])
    case Read(g, reply) =>
      var r := Computed(s.started[g - 1], reply);
      s.(running := if r.None? then s.running - {g} else s.running[g := Ready(r.value, reply)])
    case Publish(g) =>
      var s' := s.(running := s.running - {g});
      if s.gen != g then s'
      else
        s'.(visible := Some(s.running[g].visible),
            published := s.published + [Publication(g, s.running[g].reply, |s.started|)])
  }

  predicate IsRun(s: State, steps: seq<Step>)
    decreases |steps|
  {
    steps == [] || (Enabled(s, steps[0]) && IsRun(Apply(s, steps[0]), steps[1..]))
  }

  function After(s: State, steps: seq<Step>): State
    requires IsRun(s, steps)
    decreases |steps|
  {
    if steps == [] then s else After(Apply(s, steps[0]), steps[1..])
  }

  // --- The invariant ---

  ghost predicate Numbered(s: State) {
    && s.gen == |s.started|
    && (forall i :: 0 <= i < |s.started| ==> s.started[i].gen == i + 1)
    && (forall g :: g in s.running ==> 0 < g <= s.gen)
  }

  ghost predicate Honest(s: State) {
    forall g :: g in s.running && s.running[g].Ready? && 0 < g <= |s.started| ==>
                  Computed(s.started[g - 1], s.running[g].reply) == Some(s.running[g].visible)
  }

  /** One publication: of the newest build of its time, with what it computed. */
  ghost predicate PublishedRight(started: seq<Build>, p: Publication) {
    0 < p.gen <= |started| && p.startedThen == p.gen && Computed(started[p.gen - 1], p.reply).Some?
  }

  ghost predicate PublishedOnce(s: State) {
    && (forall j :: 0 <= j < |s.published| ==> PublishedRight(s.started, s.published[j]))
    && (forall j :: 0 <= j < |s.published| ==> s.published[j].gen !in s.running)
    && (forall i, j :: 0 <= i < j < |s.published| ==> s.published[i].gen < s.published[j].gen)
  }

  ghost predicate ShowsLast(s: State) {
    if s.published == [] then s.visible.None?
    else
      var p := s.published[|s.published| - 1];
      0 < p.gen <= |s.started| && s.visible == Computed(s.started[p.gen - 1], p.reply) && s.visible.Some?
  }

  ghost predicate Inv(s: State) {
    Numbered(s) && Honest(s) && PublishedOnce(s) && ShowsLast(s)
  }

  lemma PublishedOfLonger(started: seq<Build>, b: Build, p: Publication)
    requires PublishedRight(started, p)
    ensures PublishedRight(started + [b], p) && (started + [b])[p.gen - 1] == started[p.gen - 1]
  {
  }

  lemma StartKeepsPublished(s: State)
    requires Numbered(s) && PublishedOnce(s) && ShowsLast(s)
    ensures PublishedOnce(Apply(s, Start)) && ShowsLast(Apply(s, Start))
  {
    var b := Build(s.gen + 1, s.policies, s.hasStore, s.catalog);
    forall j | 0 <= j < |s.published|
      ensures PublishedRight(s.started + [b], s.published[j]) && s.published[j].gen <= s.gen
    {
      PublishedOfLonger(s.started, b, s.published[j]);
    }
  }

  lemma StartKeeps(s: State)
    requires Inv(s)
    ensures Inv(Apply(s, Start))
  {
    StartKeepsPublished(s);
    assert Numbered(Apply(s, Start)) && Honest(Apply(s, Start));
  }

  lemma ReadKeeps(s: State, step: Step)
    requires Inv(s) && step.Read? && Enabled(s, step)
    ensures Inv(Apply(s, step))
  {
  }

  lemma PublishKeepsOnce(s: State, g: nat)
    requires Numbered(s) && Honest(s) && PublishedOnce(s) && Enabled(s, Publish(g)) && s.gen == g
    ensures PublishedOnce(Apply(s, Publish(g)))
  {
    var s' := Apply(s, Publish(g));
    assert s'.published[|s.published|] == Publication(g, s.running[g].reply, |s.started|);
    assert forall j :: 0 <= j < |s.published| ==> s'.published[j] == s.published[j] && s.published[j].gen != g;
    forall j | 0 <= j < |s.published| ensures s.published[j].gen < g {
      assert PublishedRight(s.started, s.published[j]);
    }
  }

  lemma PublishKeepsRest(s: State, g: nat)
    requires Numbered(s) && Honest(s) && Enabled(s, Publish(g))
    ensures Numbered(Apply(s, Publish(g))) && Honest(Apply(s, Publish(g)))
    ensures s.gen == g ==> ShowsLast(Apply(s, Publish(g)))
  {
  }

  lemma OvertakenKeeps(s: State, g: nat)
    requires PublishedOnce(s) && ShowsLast(s) && Enabled(s, Publish(g)) && s.gen != g
    ensures PublishedOnce(Apply(s, Publish(g))) && ShowsLast(Apply(s, Publish(g)))
  {
  }

  lemma PublishKeeps(s: State, g: nat)
    requires Inv(s) && Enabled(s, Publish(g))
    ensures Inv(Apply(s, Publish(g)))
  {
    PublishKeepsRest(s, g);
    if s.gen == g {
      PublishKeepsOnce(s, g);
    } else {
      OvertakenKeeps(s, g);
    }
  }

  lemma OtherStepKeeps(s: State, s': State)
    requires Inv(s) && s'.gen == s.gen && s'.visible == s.visible && s'.running == s.running
    requires s'.started == s.started && s'.published == s.published
    ensures Inv(s')
  {
  }

  lemma StepKeepsInv(s: State, step: Step)
    requires Inv(s) && Enabled(s, step)
    ensures Inv(Apply(s, step))
  {
    match step
    case Start => StartKeeps(s);
    case Read(_, _) => ReadKeeps(s, step);
    case Publish(g) => PublishKeeps(s, g);
    case _ => OtherStepKeeps(s, Apply(s, step));
  }

  lemma {:induction false} RunKeepsInv(s: State, steps: seq<Step>)
    requires Inv(s) && IsRun(s, steps)
    ensures Inv(After(s, steps))
    decreases |steps|
  {
    if steps != [] {
      StepKeepsInv(s, steps[0]);
      RunKeepsInv(Apply(s, steps[0]), steps[1..]);
    }
  }

  /** A build whose registry read fails is over: it keeps whatever set there is, and it is gone. */
  lemma FailedReadEnds(s: State, g: nat)
    requires Enabled(s, Read(g, None)) && s.started[g - 1].hasStore && s.started[g - 1].catalog != map[]
    ensures var s' := Apply(s, Read(g, None));
            g !in s'.running && s'.visible == s.visible && s'.published == s.published
  {
  }

  // --- Over every run ---

  function Starts(steps: seq<Step>): nat {
    if steps == [] then 0 else (if steps[0].Start? then 1 else 0) + Starts(steps[1..])
  }

  lemma {:induction false} GenCountsStarts(s: State, steps: seq<Step>)
    requires IsRun(s, steps)
    ensures After(s, steps).gen == s.gen + Starts(steps)
    decreases |steps|
  {
    if steps != [] {
      GenCountsStarts(Apply(s, steps[0]), steps[1..]);
    }
  }

  lemma {:induction false} RunSplit(s: State, steps: seq<Step>, i: nat)
    requires i < |steps| && IsRun(s, steps)
    ensures IsRun(s, steps[..i]) && Enabled(After(s, steps[..i]), steps[i])
    decreases |steps|
  {
    if i > 0 {
      RunSplit(Apply(s, steps[0]), steps[1..], i - 1);
      assert steps[..i][1..] == steps[1..][..i - 1] && steps[..i][0] == steps[0];
    }
  }

  /** In every run a build publishes exactly when it is the one started last. */
  lemma OnlyTheLatestPublishes(steps: seq<Step>, i: nat)
    requires IsRun(INIT, steps) && i < |steps| && steps[i].Publish?
    ensures IsRun(INIT, steps[..i]) && Enabled(After(INIT, steps[..i]), steps[i])
    ensures var s := After(INIT, steps[..i]);
            var s' := Apply(s, steps[i]);
            && (s'.published != s.published <==> steps[i].gen == Starts(steps[..i]))
            && (steps[i].gen != Starts(steps[..i]) ==> s'.visible == s.visible)
  {
    RunSplit(INIT, steps, i);
    GenCountsStarts(INIT, steps[..i]);
  }

  /** In every reachable state: the published generations strictly increase, each publication was of
      the newest build of its time, and there is a visible set iff there was a publication. */
  lemma PublicationsIncrease(steps: seq<Step>)
    requires IsRun(INIT, steps)
    ensures var s := After(INIT, steps);
            && (forall i, j :: 0 <= i < j < |s.published| ==> s.published[i].gen < s.published[j].gen)
            && (forall j :: 0 <= j < |s.published| ==> s.published[j].startedThen == s.published[j].gen)
            && (s.visible.Some? <==> s.published != [])
  {
    RunKeepsInv(INIT, steps);
    var s := After(INIT, steps);
    assert forall j :: 0 <= j < |s.published| ==> PublishedRight(s.started, s.published[j]);
  }

  /** What the registry said to a build: without a registry, nothing. */
  function Records(b: Build, reply: Option<seq<RegistryTool>>): seq<RegistryTool> {
    if b.hasStore && reply.Some? then reply.value else []
  }

  /** Every entry of the visible set is enabled && allowed over the last published build's own
      snapshot, and the set has an entry for each tool of that snapshot. */
  lemma EntriesExact(steps: seq<Step>)
    requires IsRun(INIT, steps) && After(INIT, steps).visible.Some?
    ensures var s := After(INIT, steps);
            s.published != []
            && var p := s.published[|s.published| - 1];
            0 < p.gen <= |s.started|
            && var b := s.started[p.gen - 1];
            s.visible.value.Keys == b.catalog.Keys
            && forall k :: k in b.catalog ==>
                s.visible.value[k] == Admits(b.catalog, b.policies, Records(b, p.reply), k)
  {
    RunKeepsInv(INIT, steps);
  }

  /** Whether s' is a state that s can have grown into. */
  ghost predicate Grown(s: State, s': State) {
    && (s.visible.Some? ==> s'.visible.Some?)
    && s.gen <= s'.gen && s.published <= s'.published && s.started <= s'.started
    && (forall j :: |s.published| <= j < |s'.published| ==> s'.published[j].gen >= s.gen)
  }

  lemma GrownTwice(s: State, t: State, u: State)
    requires Grown(s, t) && Grown(t, u)
    ensures Grown(s, u)
  {
    assert forall j :: 0 <= j < |t.published| ==> u.published[j] == t.published[j];
  }

  lemma StepGrows(s: State, step: Step)
    requires Enabled(s, step)
    ensures Grown(s, Apply(s, step))
  {
  }

  /** Once published, never nil; later publications are of builds no older than the present one. */
  lemma {:induction false} PublishedStays(s: State, steps: seq<Step>)
    requires IsRun(s, steps)
    ensures Grown(s, After(s, steps))
    decreases |steps|
  {
    if steps != [] {
      var t := Apply(s, steps[0]);
      StepGrows(s, steps[0]);
      PublishedStays(t, steps[1..]);
      GrownTwice(s, t, After(t, steps[1..]));
    }
  }

  /** A build that another has overtaken never publishes, however the run goes on. */
  lemma OvertakenNeverPublishes(s: State, g: nat, steps: seq<Step>)
    requires IsRun(s, steps) && g < s.gen
    ensures var s' := After(s, steps);
            forall j :: 0 <= j < |s'.published| && s'.published[j].gen == g ==> j < |s.published|
  {
    PublishedStays(s, steps);
  }

  // --- The access checks in reachable states ---

  function ViewOf(s: State): View {
    View(s.catalog, s.visible, s.hasStore || |s.policies| > 0, s.scopes)
  }

  /** After the first publication, and away from the instant a scope expires, a catalogued tool is
      listed to an agent exactly when the agent may call it, whatever happens afterwards. */
  lemma AgreementOnceBuilt(s: State, steps: seq<Step>, agent: string, now: int, k: string)
    requires s.visible.Some? && IsRun(s, steps)
    requires var s' := After(s, steps); k in s'.catalog && (agent in s'.scopes ==> now != s'.scopes[agent].expires)
    ensures var v := ViewOf(After(s, steps)); Listed(v, agent, now, k) <==> Callable(v, agent, now, k)
  {
    PublishedStays(s, steps);
    EnforcedAgreement(ViewOf(After(s, steps)), agent, now, k);
  }

  /** A list of states linked by enabled steps is a run. */
  lemma {:induction false} TraceIsRun(trace: seq<State>, steps: seq<Step>)
    requires |trace| == |steps| + 1
    requires forall i :: 0 <= i < |steps| ==> Enabled(trace[i], steps[i]) && trace[i + 1] == Apply(trace[i], steps[i])
    ensures IsRun(trace[0], steps) && After(trace[0], steps) == trace[|steps|]
    decreases |steps|
  {
    if steps != [] {
      forall i | 0 <= i < |steps[1..]|
        ensures Enabled(trace[1..][i], steps[1..][i]) && trace[1..][i + 1] == Apply(trace[1..][i], steps[1..][i])
      {
        assert trace[1..][i] == trace[i + 1] && steps[1..][i] == steps[i + 1] && trace[1..][i + 1] == trace[i + 2];
      }
      TraceIsRun(trace[1..], steps[1..]);
    }
  }

  const TOOL := "elastic.search"
  const OTHER := "elastic.count"

  /** A tool is registered, an agent is scoped to another one, and a build runs. */
  function ScopedSteps(expires: int): seq<Step> {
    [ SetCatalog(map[TOOL := Entry("elastic", "search", "")]), AddScope("t", [OTHER], expires),
      Start, Read(1, None), Publish(1) ]
  }

  function ScopedTrace(expires: int): seq<State> {
    var c := map[TOOL := Entry("elastic", "search", "")];
    var x := map["t" := Scope({OTHER}, expires)];
    var b := [Build(1, map[], false, c)];
    var v := map[TOOL := true];
    [ INIT, State(0, c, map[], false, map[], None, map[], [], []), State(0, c, map[], false, x, None, map[], [], []),
      State(1, c, map[], false, x, None, map[1 := Reading], b, []),
      State(1, c, map[], false, x, None, map[1 := Ready(v, None)], b, []),
      State(1, c, map[], false, x, Some(v), map[], b, [Publication(1, None, 1)]) ]
  }

  lemma ScopedIsTrace(expires: int, i: nat)
    requires i < 5
    ensures var t, steps := ScopedTrace(expires), ScopedSteps(expires);
            Enabled(t[i], steps[i]) && t[i + 1] == Apply(t[i], steps[i])
  {
    var t, steps := ScopedTrace(expires), ScopedSteps(expires);
    if i == 1 {
      assert (set k | k in [OTHER]) == {OTHER};
    } else if i == 3 {
      assert VisibleSet(t[3].catalog, map[], []) == map[TOOL := true];
      assert Computed(t[3].started[0], None) == Some(map[TOOL := true]);
    } else if i == 4 {
      assert t[4].running - {1} == map[];
    }
  }

  /** A reachable state before any build, with nothing enforced: a tool outside the agent's scope is
      listed to it and cannot be called. */
  lemma ListedNotCallable(now: int, expires: int)
    requires now <= expires
    ensures var steps := ScopedSteps(expires)[..2];
            IsRun(INIT, steps)
            && var v := ViewOf(After(INIT, steps));
            TOOL in v.catalog && v.visible.None? && Listed(v, "t", now, TOOL) && !Callable(v, "t", now, TOOL)
  {
    forall i | 0 <= i < 5 ensures Enabled(ScopedTrace(expires)[i], ScopedSteps(expires)[i])
      && ScopedTrace(expires)[i + 1] == Apply(ScopedTrace(expires)[i], ScopedSteps(expires)[i])
    {
      ScopedIsTrace(expires, i);
    }
    TraceIsRun(ScopedTrace(expires)[..3], ScopedSteps(expires)[..2]);
    assert OTHER != TOOL by { assert |OTHER| != |TOOL|; }
  }

  /** A reachable state after a build: at the instant the scope expires, and at no other, a visible tool
      outside the scope is listed and cannot be called. */
  lemma ListedAtExpiry(now: int, expires: int)
    ensures var steps := ScopedSteps(expires);
            IsRun(INIT, steps)
            && var v := ViewOf(After(INIT, steps));
            && TOOL in v.catalog && v.visible == Some(map[TOOL := true])
            && (Listed(v, "t", now, TOOL) && !Callable(v, "t", now, TOOL) <==> now == expires)
  {
    forall i | 0 <= i < 5 ensures Enabled(ScopedTrace(expires)[i], ScopedSteps(expires)[i])
      && ScopedTrace(expires)[i + 1] == Apply(ScopedTrace(expires)[i], ScopedSteps(expires)[i])
    {
      ScopedIsTrace(expires, i);
    }
    TraceIsRun(ScopedTrace(expires), ScopedSteps(expires));
    assert OTHER != TOOL by { assert |OTHER| != |TOOL|; }
  }

  /** A tool an agent may call once a set is built is catalogued now, and was enabled and allowed
      when the last published build took its snapshot. */
  lemma CallableWasAdmitted(steps: seq<Step>, agent: string, now: int, k: string)
    requires IsRun(INIT, steps) && After(INIT, steps).visible.Some?
    requires Callable(ViewOf(After(INIT, steps)), agent, now, k)
    ensures var s := After(INIT, steps);
            k in s.catalog && s.published != []
            && var p := s.published[|s.published| - 1];
            0 < p.gen <= |s.started|
            && var b := s.started[p.gen - 1];
            k in b.catalog && Admits(b.catalog, b.policies, Records(b, p.reply), k)
  {
    EntriesExact(steps);
  }
}
