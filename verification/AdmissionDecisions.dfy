/** When a proposal is materialised, when an objective is frozen and when it closes, spelled out from the
    proposal, the objective and the missions (internal/admission/policy.go, controller.go). */
module AdmissionDecisions {
  import opened EventTypes
  import opened Admission
  import opened AdmissionRuns

  /** The children of a mission that are pending or claimed. */
  function LiveChildren(ms: seq<Mission>, p: nat): set<nat> {
    set i | 0 <= i < |ms| && ms[i].parent == Some(p) && (ms[i].status.Pending? || ms[i].status.Claimed?)
  }

  lemma {:induction false} ChildrenCounted(ms: seq<Mission>, p: nat)
    ensures ActiveChildren(ms, p) == |LiveChildren(ms, p)|
  {
    if ms != [] {
      var front, n := ms[..|ms| - 1], |ms| - 1;
      ChildrenCounted(front, p);
      var counts := ms[n].parent == Some(p) && (ms[n].status.Pending? || ms[n].status.Claimed?);
      assert LiveChildren(ms, p) == LiveChildren(front, p) + (if counts then {n} else {});
    }
  }

  /** The waiting proposals of an objective. */
  function WaitingOf(ps: seq<Proposal>, o: string): set<nat> {
    set i | 0 <= i < |ps| && ps[i].objective == o && ps[i].review == Waiting
  }

  /** How many proposals a rejection of all waiting ones reports. */
  lemma {:induction false} WaitingCounted(ps: seq<Proposal>, o: string)
    ensures CountWaiting(ps, o) == |WaitingOf(ps, o)|
  {
    if ps != [] {
      var front, n := ps[..|ps| - 1], |ps| - 1;
      WaitingCounted(front, o);
      assert WaitingOf(ps, o) ==
             WaitingOf(front, o) + (if ps[n].objective == o && ps[n].review == Waiting then {n} else {});
    }
  }

  /** Everything but the circuit breaker: the objective is open and under its mission cap, the child would
      not be too deep, its parent has room, there is runtime left, and evidence is given when required. */
  ghost predicate Within(policy: Policy, s: State, p: Proposal, env: Env) {
    && env.readable && env.countable
    && p.objective in s.objectives && p.parent < |s.missions| && !s.missions[p.parent].status.Deleted?
    && var obj := s.objectives[p.objective];
    && obj.status.Open? && obj.missionCount < obj.maxMissions
    && s.missions[p.parent].depth + 1 <= obj.maxDepth && |LiveChildren(s.missions, p.parent)| < obj.maxBranching
    && (obj.maxRuntime <= 0 || env.now - obj.createdAt < obj.maxRuntime)
    && (policy.evidenceThreshold <= 0 || obj.missionCount < policy.evidenceThreshold
        || (p.evidence != "" && p.evidence != "null"))
  }

  /** The breaker: some missions, and at least K times the findings, or K while there are none. */
  ghost predicate Trips(policy: Policy, obj: Objective) {
    && policy.breakerRatio > 0 && obj.missionCount > 0
    && (obj.findingCount > 0 ==> obj.missionCount >= policy.breakerRatio * obj.findingCount)
    && (obj.findingCount == 0 ==> obj.missionCount >= policy.breakerRatio)
  }

  lemma ThresholdSpelled(policy: Policy, obj: Objective)
    requires policy.breakerRatio > 0
    ensures obj.missionCount > 0 && obj.missionCount >= Threshold(policy, obj.findingCount) <==> Trips(policy, obj)
  {
    if obj.findingCount > 0 {
      assert policy.breakerRatio * obj.findingCount > 0;
    }
  }

  lemma VerdictSpelled(policy: Policy, s: State, p: Proposal, env: Env)
    ensures Verdict(s, policy, p, env) ==
            if !Within(policy, s, p, env) then Reject
            else if Trips(policy, s.objectives[p.objective]) then Freeze
            else Approve
  {
    if p.objective in s.objectives && p.parent < |s.missions| {
      ChildrenCounted(s.missions, p.parent);
      if policy.breakerRatio > 0 {
        ThresholdSpelled(policy, s.objectives[p.objective]);
      }
    }
  }

  /** A judgement materialises a mission if and only if the proposal is within every limit, the breaker does
      not trip and the enqueue succeeds; the mission is the proposal's, one deeper than its parent. */
  lemma MaterialisesIff(policy: Policy, s: State, pid: nat, env: Env)
    requires pid < |s.proposals|
    ensures var p, s' := s.proposals[pid], Apply(policy, s, Judge(pid, env));
            && (s'.missions != s.missions <==>
                Within(policy, s, p, env) && !Trips(policy, s.objectives[p.objective]) && env.enqueued)
            && (s'.missions != s.missions ==>
                  && s'.missions ==
                     s.missions + [Mission(p.objective, Some(p.parent), s.missions[p.parent].depth + 1, Pending)]
                  && s'.objectives[p.objective].missionCount == s.objectives[p.objective].missionCount + 1
                  && s'.proposals[pid].review == Approved)
  {
    VerdictSpelled(policy, s, s.proposals[pid], env);
    var s' := Apply(policy, s, Judge(pid, env));
    assert |s'.missions| != |s.missions| ==> s'.missions != s.missions;
  }

  /** It freezes an objective if and only if the proposal is within every limit and the breaker trips; the
      objective's waiting proposals are then rejected and nobody else's. */
  lemma FreezesIff(policy: Policy, s: State, pid: nat, env: Env, o: string)
    requires pid < |s.proposals| && IsOpen(s, o)
    ensures var p, s' := s.proposals[pid], Apply(policy, s, Judge(pid, env));
            && o in s'.objectives
            && (s'.objectives[o].status != Open <==>
                p.objective == o && Within(policy, s, p, env) && Trips(policy, s.objectives[o]))
            && (s'.objectives[o].status != Open ==>
                  && s'.objectives[o].status == Frozen
                  && |s'.proposals| == |s.proposals|
                  && forall i :: 0 <= i < |s.proposals| ==>
                       s'.proposals[i].review ==
                       if s.proposals[i].objective == o && s.proposals[i].review == Waiting then Rejected
                       else s.proposals[i].review)
  {
    VerdictSpelled(policy, s, s.proposals[pid], env);
  }

  /** And it rejects the proposal, changing nothing else, if and only if some limit is passed. */
  lemma RejectsIff(policy: Policy, s: State, pid: nat, env: Env)
    requires pid < |s.proposals|
    ensures !Within(policy, s, s.proposals[pid], env) ==>
              Apply(policy, s, Judge(pid, env)) ==
              State(s.objectives, s.missions, s.proposals[pid := s.proposals[pid].(review := Rejected)])
  {
    VerdictSpelled(policy, s, s.proposals[pid], env);
  }

  /** In every run, whatever step adds a mission with a parent is a judgement of a proposal within every
      limit of that moment. */
  lemma MissionsNeedApproval(policy: Policy, steps: seq<Step>, i: nat)
    requires IsRun(policy, INIT, steps) && i < |steps|
    ensures IsRun(policy, INIT, steps[..i]) && IsRun(policy, INIT, steps[..i + 1])
    ensures var s, s' := After(policy, INIT, steps[..i]), After(policy, INIT, steps[..i + 1]);
            |s'.missions| > |s.missions| && s'.missions[|s.missions|].parent.Some? ==>
              && steps[i].Judge? && steps[i].pid < |s.proposals|
              && var p := s.proposals[steps[i].pid];
              Within(policy, s, p, steps[i].env) && !Trips(policy, s.objectives[p.objective])
  {
    RunPrefix(policy, INIT, steps, i);
    RunPrefix(policy, INIT, steps, i + 1);
    assert steps[..i + 1][..i] == steps[..i];
    var s := After(policy, INIT, steps[..i]);
    if steps[i].Judge? {
      MaterialisesIff(policy, s, steps[i].pid, steps[i].env);
    }
  }

  // --- Closing ---

  /** The objective has missions, none is pending or claimed, and no proposal for it waits. */
  ghost predicate Spent(s: State, o: string) {
    && o in s.objectives && s.objectives[o].missionCount > 0
    && (forall i :: 0 <= i < |s.missions| && s.missions[i].objective == o ==>
          !s.missions[i].status.Pending? && !s.missions[i].status.Claimed?)
    && (forall i :: 0 <= i < |s.proposals| && s.proposals[i].objective == o ==> s.proposals[i].review != Waiting)
  }

  /** A convergence check closes an open objective as budget-exhausted, timed out or exhausted, in that
      order, and otherwise leaves everything; only the status changes, and waiting proposals are rejected. */
  lemma CheckCloses(policy: Policy, s: State, o: string, now: int)
    requires IsOpen(s, o)
    ensures var obj, s' := s.objectives[o], Apply(policy, s, Check(o, now));
            var status := if obj.missionCount >= obj.maxMissions then BudgetExhausted
                          else if obj.maxRuntime > 0 && now - obj.createdAt >= obj.maxRuntime then TimedOut
                          else if Spent(s, o) then Exhausted
                          else Open;
            && s'.missions == s.missions
            && s'.objectives == s.objectives[o := obj.(status := status)]
            && |s'.proposals| == |s.proposals|
            && forall i :: 0 <= i < |s.proposals| ==>
                 s'.proposals[i] ==
                 if status != Open && s.proposals[i].objective == o && s.proposals[i].review == Waiting
                 then s.proposals[i].(review := Rejected) else s.proposals[i]
  {
    var obj := s.objectives[o];
    assert obj.(status := Open) == obj;
  }

  /** The reaper times an open objective out only after its runtime, strictly. */
  lemma ReapCloses(policy: Policy, s: State, o: string, now: int)
    requires IsOpen(s, o)
    ensures var obj, s' := s.objectives[o], Apply(policy, s, Reap(o, now));
            s' == if obj.maxRuntime > 0 && now - obj.createdAt > obj.maxRuntime
                  then State(s.objectives[o := obj.(status := TimedOut)], s.missions, s.proposals) else s
  {
  }

  /** The life of an objective: it is created open; open it may freeze, end or be concluded; frozen it may
      only reopen; ended it stays as it is. */
  lemma ObjectiveGraph(policy: Policy, s: State, step: Step, o: string)
    requires Enabled(s, step) && o in s.objectives
    ensures var a, s' := s.objectives[o].status, Apply(policy, s, step);
            && o in s'.objectives
            && var b := s'.objectives[o].status;
            a != b ==>
              || (a == Open && b == Frozen && step.Judge?)
              || (a == Open && (b == BudgetExhausted || b == Exhausted) && step.Check?)
              || (a == Open && b == TimedOut && (step.Check? || step.Reap?))
              || (a == Open && (b == Answered || b == Disproven) && step.Conclude?)
              || (a == Frozen && b == Open && step == Unfreeze(o))
  {
  }
}
