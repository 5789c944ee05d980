/** What policies and the registry mean for the tools an agent can see and call, spelled out pattern by
    pattern over every run (internal/gateway/policy.go, gateway.go). */
module VisibilityRules {
  import opened EventTypes
  import opened Catalog
  import opened Gateway
  import G = Gateway
  import opened Visibility

  /** The pattern is the name, or a beginning of it (possibly empty) followed by a star. */
  ghost predicate Covers(pattern: string, name: string) {
    pattern == name || exists n :: 0 <= n <= |name| && pattern == name[..n] + "*"
  }

  ghost predicate Denied(p: ToolPolicy, name: string) {
    exists i :: 0 <= i < |p.deny| && Covers(p.deny[i], name)
  }

  /** There is an allow list and it does not cover the name. */
  ghost predicate NotAllowed(p: ToolPolicy, name: string) {
    p.allowOnly != [] && forall i :: 0 <= i < |p.allowOnly| ==> !Covers(p.allowOnly[i], name)
  }

  lemma MatchesSpelled(pattern: string, name: string)
    ensures Matches(pattern, name) <==> Covers(pattern, name)
  {
    if pattern == "*" {
      assert pattern == name[..0] + "*";
    }
    if |pattern| > 0 && pattern[|pattern| - 1] == '*' && pattern[..|pattern| - 1] <= name {
      var n := |pattern| - 1;
      assert pattern == name[..n] + "*";
    }
    if n :| 0 <= n <= |name| && pattern == name[..n] + "*" {
      assert pattern[..|pattern| - 1] == name[..n] && pattern[|pattern| - 1] == '*';
    }
  }

  lemma AllowedSpelled(p: ToolPolicy, name: string)
    ensures PolicyAllowed(Some(p), name) <==> !Denied(p, name) && !NotAllowed(p, name)
  {
    forall pattern: string ensures Matches(pattern, name) <==> Covers(pattern, name) {
      MatchesSpelled(pattern, name);
    }
  }

  /** The last record of the key, if there is one, says enabled. */
  ghost predicate SwitchedOn(tools: seq<RegistryTool>, k: string) {
    forall i :: 0 <= i < |tools| && LastRecord(tools, k, i) ==> tools[i].enabled
  }

  ghost predicate LastRecord(tools: seq<RegistryTool>, k: string, i: nat)
    requires i < |tools|
  {
    && tools[i].server + "." + tools[i].tool == k
    && forall j :: i < j < |tools| ==> tools[j].server + "." + tools[j].tool != k
  }

  lemma {:induction false} EnabledSpelled(tools: seq<RegistryTool>, k: string)
    ensures G.Enabled(tools, k) <==> SwitchedOn(tools, k)
  {
    if tools != [] {
      var front, n := tools[..|tools| - 1], |tools| - 1;
      EnabledSpelled(front, k);
      assert forall i :: 0 <= i < n ==> front[i] == tools[i];
      if Key(tools[n].server, tools[n].tool) == k {
        assert LastRecord(tools, k, n);
      } else {
        assert forall i :: 0 <= i < n ==> (LastRecord(tools, k, i) <==> LastRecord(front, k, i));
      }
    }
  }

  /** The policy of a server in a build's snapshot, if it has one. */
  function PolicyIn(b: Build, server: string): Option<ToolPolicy> {
    if server in b.policies then b.policies[server] else None
  }

  /** A tool of the snapshot that the policy of its server forbids. */
  ghost predicate Forbidden(b: Build, k: string) {
    && k in b.catalog
    && var policy := PolicyIn(b, b.catalog[k].server);
    policy.Some? && (Denied(policy.value, b.catalog[k].tool) || NotAllowed(policy.value, b.catalog[k].tool))
  }

  lemma AdmitsSpelled(b: Build, tools: seq<RegistryTool>, k: string)
    requires k in b.catalog
    ensures Admits(b.catalog, b.policies, tools, k) <==> SwitchedOn(tools, k) && !Forbidden(b, k)
  {
    var policy := PolicyIn(b, b.catalog[k].server);
    EnabledSpelled(tools, k);
    if policy.Some? {
      AllowedSpelled(policy.value, b.catalog[k].tool);
    }
  }

  /** In every run, every set that was ever published says true for a tool of its snapshot if and only if
      the policy of the tool's server does not forbid it and the registry, where there is one, does not
      switch it off. */
  lemma PublishedExactly(steps: seq<Step>, j: nat, k: string)
    requires IsRun(INIT, steps) && j < |After(INIT, steps).published|
    ensures var s := After(INIT, steps);
            var p := s.published[j];
            0 < p.gen <= |s.started|
            && var b := s.started[p.gen - 1];
            Computed(b, p.reply).Some?
            && (k in b.catalog ==>
                  k in Computed(b, p.reply).value
                  && (Computed(b, p.reply).value[k] <==> SwitchedOn(Records(b, p.reply), k) && !Forbidden(b, k)))
  {
    RunKeepsInv(INIT, steps);
    var s := After(INIT, steps);
    var p := s.published[j];
    assert PublishedRight(s.started, p);
    var b := s.started[p.gen - 1];
    if k in b.catalog {
      AdmitsSpelled(b, Records(b, p.reply), k);
    }
  }

  /** In every run a tool that the last published snapshot forbids is never callable, by anybody. */
  lemma ForbiddenNeverCallable(steps: seq<Step>, agent: string, now: int, k: string)
    requires IsRun(INIT, steps) && After(INIT, steps).published != []
    requires var s := After(INIT, steps);
             var p := s.published[|s.published| - 1];
             0 < p.gen <= |s.started| && Forbidden(s.started[p.gen - 1], k)
    ensures !Callable(ViewOf(After(INIT, steps)), agent, now, k)
  {
    PublicationsIncrease(steps);
    if Callable(ViewOf(After(INIT, steps)), agent, now, k) {
      CallableWasAdmitted(steps, agent, now, k);
      var s := After(INIT, steps);
      var p := s.published[|s.published| - 1];
      AdmitsSpelled(s.started[p.gen - 1], Records(s.started[p.gen - 1], p.reply), k);
    }
  }

  /** Adding a deny entry never makes a tool visible. */
  lemma DenyingHides(b: Build, reply: Option<seq<RegistryTool>>, server: string, pattern: string, k: string)
    requires PolicyIn(b, server).Some? && k in b.catalog
    ensures var p := PolicyIn(b, server).value;
            var b' := b.(policies := b.policies[server := Some(ToolPolicy(p.allowOnly, p.deny + [pattern]))]);
            && (Computed(b, reply).Some? <==> Computed(b', reply).Some?)
            && (Computed(b', reply).Some? && Computed(b', reply).value[k] ==> Computed(b, reply).value[k])
  {
    var p := PolicyIn(b, server).value;
    var p' := ToolPolicy(p.allowOnly, p.deny + [pattern]);
    var b' := b.(policies := b.policies[server := Some(p')]);
    AdmitsSpelled(b, Records(b, reply), k);
    AdmitsSpelled(b', Records(b, reply), k);
    if i :| 0 <= i < |p.deny| && Covers(p.deny[i], b.catalog[k].tool) {
      assert p'.deny[i] == p.deny[i];
    }
  }
}
