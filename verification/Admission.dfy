/** The admission controller: proposals become missions under an objective's budgets
    (internal/admission/controller.go, policy.go; internal/objective/objective.go). */
module Admission {
  import opened EventTypes

  datatype Status = Open | Answered | Disproven | Exhausted | BudgetExhausted | TimedOut | Frozen

  predicate Terminal(s: Status) {
    s.Answered? || s.Disproven? || s.Exhausted? || s.BudgetExhausted? || s.TimedOut?
  }

  predicate CanTransition(from: Status, to: Status) {
    (from.Open? && (Terminal(to) || to.Frozen?)) || (from.Frozen? && to.Open?)
  }

  datatype Objective = Objective(
    status: Status,
    createdAt: int,
    maxMissions: int,
    maxDepth: int,
    maxRuntime: int,
    maxBranching: int,
    missionCount: nat,
    findingCount: nat
  )

  datatype MissionStatus = Pending | Claimed | Finished | Deleted

  /** Missions are numbered in the order they are enqueued. Root missions have no parent. */
  datatype Mission = Mission(objective: string, parent: Option<nat>, depth: nat, status: MissionStatus)

  datatype Review = Waiting | Approved | Rejected

  /** Proposals are numbered in the order they are submitted. */
  datatype Proposal = Proposal(objective: string, parent: nat, evidence: string, priority: int, review: Review)

  datatype Policy = Policy(evidenceThreshold: int, breakerRatio: int)

  datatype State = State(objectives: map<string, Objective>, missions: seq<Mission>, proposals: seq<Proposal>)

  /** What the surroundings contribute to one evaluation: the time, whether the objective and the
      parent could be read, whether the children could be counted, whether the enqueue succeeded. */
  datatype Env = Env(now: int, readable: bool, countable: bool, enqueued: bool)

  datatype Decision = Approve | Reject | Freeze

  predicate Active(m: Mission) {
    m.status.Pending? || m.status.Claimed?
  }

  function ActiveChildren(ms: seq<Mission>, p: nat): nat {
    if ms == [] then 0
    else
      var m := ms[|ms| - 1];
      ActiveChildren(ms[..|ms| - 1], p) + if m.parent == Some(p) && Active(m) then 1 else 0
  }

  /** Missions at which the circuit breaker trips. */
  function Threshold(policy: Policy, findings: nat): int {
    if policy.breakerRatio * findings == 0 then policy.breakerRatio else policy.breakerRatio * findings
  }

  function Evaluate(policy: Policy, evidence: string, obj: Objective, parentDepth: nat, children: Option<nat>,
                    now: int): Decision {
    if !obj.status.Open? then Reject
    else if obj.missionCount >= obj.maxMissions then Reject
    else if parentDepth + 1 > obj.maxDepth then Reject
    else if children.None? || children.value >= obj.maxBranching then Reject
    else if obj.maxRuntime > 0 && now - obj.createdAt >= obj.maxRuntime then Reject
    else if policy.evidenceThreshold > 0 && obj.missionCount >= policy.evidenceThreshold
      && (evidence == "" || evidence == "null") then Reject
    else if policy.breakerRatio > 0 && obj.missionCount > 0
      && obj.missionCount >= Threshold(policy, obj.findingCount) then Freeze
    else Approve
  }

  // --- What each operation does to the stores ---

  function SetReview(s: State, pid: nat, r: Review): State
    requires pid < |s.proposals|
  {
    s.(proposals := s.proposals[pid := s.proposals[pid].(review := r)])
  }

  function RejectWaiting(ps: seq<Proposal>, o: string): (r: seq<Proposal>)
    ensures |r| == |ps|
    ensures forall i :: 0 <= i < |ps| ==>
              r[i] == if ps[i].objective == o && ps[i].review.Waiting? then ps[i].(review := Rejected) else ps[i]
  {
    seq(|ps|, i requires 0 <= i < |ps| =>
      if ps[i].objective == o && ps[i].review.Waiting? then ps[i].(review := Rejected) else ps[i])
  }

  /** How many proposals of the objective are waiting. */
  function CountWaiting(ps: seq<Proposal>, o: string): nat {
    if ps == [] then 0
    else
      var p := ps[|ps| - 1];
      CountWaiting(ps[..|ps| - 1], o) + if p.objective == o && p.review.Waiting? then 1 else 0
  }

  /** The order of the pending list: higher priority first, then the older proposal. */
  predicate Before(ps: seq<Proposal>, p: nat, q: nat) {
    p < |ps| && q < |ps| && (ps[p].priority > ps[q].priority || (ps[p].priority == ps[q].priority && p < q))
  }

  ghost predicate Listed(ps: seq<Proposal>, pids: seq<nat>) {
    forall i, j :: 0 <= i < j < |pids| ==> Before(ps, pids[i], pids[j])
  }

  /** Behind the first proposal of lower priority all have lower priority. */
  lemma RestFollows(ps: seq<Proposal>, pids: seq<nat>, p: nat, k: nat)
    requires p < |ps| && k <= |pids| && Listed(ps, pids) && forall i :: 0 <= i < |pids| ==> pids[i] < p
    requires k < |pids| ==> ps[pids[k]].priority < ps[p].priority
    ensures forall i :: k <= i < |pids| ==> Before(ps, p, pids[i])
  {
    forall i | k <= i < |pids| ensures Before(ps, p, pids[i]) {
      assert k < i ==> Before(ps, pids[k], pids[i]);
    }
  }

  lemma InsertedInOrder(ps: seq<Proposal>, pids: seq<nat>, p: nat, k: nat)
    requires k <= |pids| && Listed(ps, pids)
    requires forall i :: 0 <= i < k ==> Before(ps, pids[i], p)
    requires forall i :: k <= i < |pids| ==> Before(ps, p, pids[i])
    ensures var r := pids[..k] + [p] + pids[k..];
            Listed(ps, r) && forall q: nat :: q in r <==> q in pids || q == p
  {
    var r := pids[..k] + [p] + pids[k..];
    assert pids == pids[..k] + pids[k..];
    forall i, j | 0 <= i < j < |r| ensures Before(ps, r[i], r[j]) {
      var x, y := if i < k then i else i - 1, if j < k then j else j - 1;
      assert i != k && j != k ==> r[i] == pids[x] && r[j] == pids[y];
    }
  }

  function Close(s: State, o: string, status: Status): State
    requires o in s.objectives
  {
    s.(objectives := s.objectives[o := s.objectives[o].(status := status)],
       proposals := if Terminal(status) || status.Frozen? then RejectWaiting(s.proposals, o) else s.proposals)
  }

  function Materialize(s: State, pid: nat, enqueued: bool): State
    requires pid < |s.proposals| && s.proposals[pid].objective in s.objectives && s.proposals[pid].parent < |s.missions|
  {
    var p := s.proposals[pid];
    var obj := s.objectives[p.objective];
    var s' := SetReview(s, pid, Approved);
    if !enqueued then s'
    else
      s'.(missions := s.missions + [Mission(p.objective, Some(p.parent), s.missions[p.parent].depth + 1, Pending)],
          objectives := s.objectives[p.objective := obj.(missionCount := obj.missionCount + 1)])
  }

  predicate Found(s: State, p: Proposal) {
    p.objective in s.objectives && p.parent < |s.missions| && !s.missions[p.parent].status.Deleted?
  }

  function Verdict(s: State, policy: Policy, p: Proposal, env: Env): Decision {
    if !env.readable || !Found(s, p) then Reject
    else
      var children := if env.countable then Some(ActiveChildren(s.missions, p.parent)) else None;
      Evaluate(policy, p.evidence, s.objectives[p.objective], s.missions[p.parent].depth, children, env.now)
  }

  function EvaluateOne(s: State, policy: Policy, pid: nat, env: Env): State
    requires pid < |s.proposals|
  {
    var p := s.proposals[pid];
    match Verdict(s, policy, p, env)
    case Reject => SetReview(s, pid, Rejected)
    case Freeze => Close(s, p.objective, Frozen)
    case Approve => Materialize(s, pid, env.enqueued)
  }

  /** All missions of the objective have ended. */
  predicate AllEnded(ms: seq<Mission>, o: string) {
    forall i :: 0 <= i < |ms| && ms[i].objective == o ==> !Active(ms[i])
  }

  predicate NoneWaiting(ps: seq<Proposal>, o: string) {
    forall i :: 0 <= i < |ps| && ps[i].objective == o ==> !ps[i].review.Waiting?
  }

  /** The convergence check of an open objective. */
  function Converge(s: State, o: string, now: int): State
    requires o in s.objectives && s.objectives[o].status.Open?
  {
    var obj := s.objectives[o];
    if obj.missionCount >= obj.maxMissions then Close(s, o, BudgetExhausted)
    else if obj.maxRuntime > 0 && now - obj.createdAt >= obj.maxRuntime then Close(s, o, TimedOut)
    else if AllEnded(s.missions, o) && obj.missionCount > 0 && NoneWaiting(s.proposals, o) then Close(s, o, Exhausted)
    else s
  }

  /** The reaper's timeout; unlike the controller it leaves waiting proposals alone. */
  function TimeOut(s: State, o: string, now: int): State
    requires o in s.objectives && s.objectives[o].status.Open?
  {
    var obj := s.objectives[o];
    if obj.maxRuntime <= 0 || now - obj.createdAt <= obj.maxRuntime then s
    else s.(objectives := s.objectives[o := obj.(status := TimedOut)])
  }

  /** A pass evaluates a list of proposals in order, each in its own surroundings. */
  function Pass(s: State, policy: Policy, pids: seq<nat>, envs: seq<Env>): (r: State)
    requires |pids| == |envs| && forall i :: 0 <= i < |pids| ==> pids[i] < |s.proposals|
    ensures |r.proposals| == |s.proposals|
    decreases |pids|
  {
    if pids == [] then s
    else EvaluateOne(Pass(s, policy, pids[..|pids| - 1], envs[..|pids| - 1]), policy, pids[|pids| - 1],
                     envs[|pids| - 1])
  }

  function Envs(pids: seq<nat>, env: nat -> Env): (r: seq<Env>)
    ensures |r| == |pids|
  {
    seq(|pids|, i requires 0 <= i < |pids| => env(pids[i]))
  }

  // --- The controller ---

  class Controller {
    const policy: Policy
    var objectives: map<string, Objective>
    var missions: seq<Mission>
    var proposals: seq<Proposal>

    function AsState(): State reads this {
      State(objectives, missions, proposals)
    }

    constructor (policy: Policy, s: State)
      ensures this.policy == policy && AsState() == s
    {
      this.policy := policy;
      objectives, missions, proposals := s.objectives, s.missions, s.proposals;
    }

    method RejectAllPending(o: string) returns (rejected: nat)
      modifies this`proposals
      ensures proposals == RejectWaiting(old(proposals), o) && rejected == CountWaiting(old(proposals), o)
    {
      rejected := 0;
      ghost var ps := proposals;
      for i := 0 to |proposals|
        invariant |proposals| == |old(proposals)| && rejected == CountWaiting(ps[..i], o)
        invariant forall j :: 0 <= j < i ==> proposals[j] == RejectWaiting(old(proposals), o)[j]
        invariant forall j :: i <= j < |proposals| ==> proposals[j] == old(proposals)[j]
      {
        assert ps[..i + 1][..i] == ps[..i];
        if proposals[i].objective == o && proposals[i].review.Waiting? {
          proposals := proposals[i := proposals[i].(review := Rejected)];
          rejected := rejected + 1;
        }
      }
      assert ps[..|ps|] == ps;
    }

    method CountActiveChildren(p: nat) returns (n: nat)
      ensures n == ActiveChildren(missions, p)
    {
      n := 0;
      for i := 0 to |missions|
        invariant n == ActiveChildren(missions[..i], p)
      {
        assert missions[..i + 1][..i] == missions[..i];
        if missions[i].parent == Some(p) && Active(missions[i]) {
          n := n + 1;
        }
      }
      assert missions[..|missions|] == missions;
    }

    method EvaluateProposal(pid: nat, env: Env)
      requires pid < |proposals|
      modifies this
      ensures AsState() == EvaluateOne(old(AsState()), policy, pid, env)
    {
      var p := proposals[pid];
      if !env.readable || p.objective !in objectives || p.parent >= |missions| || missions[p.parent].status.Deleted? {
        proposals := proposals[pid := p.(review := Rejected)];
        return;
      }
      var obj, parent := objectives[p.objective], missions[p.parent];
      var children := None;
      if env.countable {
        var n := CountActiveChildren(p.parent);
        children := Some(n);
      }
      match Evaluate(policy, p.evidence, obj, parent.depth, children, env.now)
      case Approve =>
        proposals := proposals[pid := p.(review := Approved)];
        if env.enqueued {
          missions := missions + [Mission(p.objective, Some(p.parent), parent.depth + 1, Pending)];
          objectives := objectives[p.objective := obj.(missionCount := obj.missionCount + 1)];
        }
      case Reject =>
        proposals := proposals[pid := p.(review := Rejected)];
      case Freeze =>
        objectives := objectives[p.objective := obj.(status := Frozen)];
        var _ := RejectAllPending(p.objective);
    }

    /** Puts a proposal younger than all listed ones behind those of at least its priority. */
    method Insert(pids: seq<nat>, p: nat) returns (r: seq<nat>)
      requires p < |proposals| && forall i :: 0 <= i < |pids| ==> pids[i] < p
      requires Listed(proposals, pids)
      ensures Listed(proposals, r)
      ensures forall q: nat :: q in r <==> q in pids || q == p
    {
      var k := 0;
      while k < |pids| && proposals[pids[k]].priority >= proposals[p].priority
        invariant k <= |pids| && forall i :: 0 <= i < k ==> Before(proposals, pids[i], p)
      {
        k := k + 1;
      }
      RestFollows(proposals, pids, p, k);
      InsertedInOrder(proposals, pids, p, k);
      r := pids[..k] + [p] + pids[k..];
    }

    /** The ids of the waiting proposals, by priority and then age, each once. */
    method PendingProposals() returns (pids: seq<nat>)
      ensures forall p: nat :: p in pids <==> p < |proposals| && proposals[p].review.Waiting?
      ensures Listed(proposals, pids)
      ensures forall i, j :: 0 <= i < j < |pids| ==>
                && pids[i] < |proposals| && pids[j] < |proposals|
                && (|| proposals[pids[i]].priority > proposals[pids[j]].priority
                    || (proposals[pids[i]].priority == proposals[pids[j]].priority && pids[i] < pids[j]))
    {
      pids := [];
      for p := 0 to |proposals|
        invariant forall q: nat :: q in pids <==> q < p && proposals[q].review.Waiting?
        invariant Listed(proposals, pids)
      {
        if proposals[p].review.Waiting? {
          assert forall i :: 0 <= i < |pids| ==> pids[i] in pids;
          pids := Insert(pids, p);
        }
      }
      forall i, j | 0 <= i < j < |pids|
        ensures && pids[i] < |proposals| && pids[j] < |proposals|
                && (|| proposals[pids[i]].priority > proposals[pids[j]].priority
                    || (proposals[pids[i]].priority == proposals[pids[j]].priority && pids[i] < pids[j]))
      {
        assert Before(proposals, pids[i], pids[j]);
      }
    }

    /** One pass over the proposals that are waiting when it starts; env says what surrounds the
        evaluation of each. */
    method EvaluatePending(env: nat -> Env) returns (pids: seq<nat>)
      modifies this
      ensures forall p: nat :: p in pids <==> p < |old(proposals)| && old(proposals)[p].review.Waiting?
      ensures Listed(old(proposals), pids)
      ensures (forall i :: 0 <= i < |pids| ==> pids[i] < |old(proposals)|)
              && AsState() == Pass(old(AsState()), policy, pids, Envs(pids, env))
    {
      pids := PendingProposals();
      assert forall i :: 0 <= i < |pids| ==> pids[i] in pids;
      EvaluateProposals(pids, Envs(pids, env));
    }

    /** Evaluates a list of proposals in order. */
    method EvaluateProposals(pids: seq<nat>, envs: seq<Env>)
      requires |pids| == |envs| && forall i :: 0 <= i < |pids| ==> pids[i] < |proposals|
      modifies this
      ensures AsState() == Pass(old(AsState()), policy, pids, envs)
    {
      ghost var s := AsState();
      for i := 0 to |pids|
        invariant AsState() == Pass(s, policy, pids[..i], envs[..i])
        invariant |proposals| == |s.proposals|
      {
        assert pids[..i + 1][..i] == pids[..i] && envs[..i + 1][..i] == envs[..i];
        EvaluateProposal(pids[i], envs[i]);
      }
      assert pids[..|pids|] == pids && envs[..|pids|] == envs;
    }

    method TransitionObjective(o: string, status: Status)
      requires o in objectives
      modifies this`objectives, this`proposals
      ensures CanTransition(old(objectives)[o].status, status) && Terminal(status) ==>
                AsState() == Close(old(AsState()), o, status)
      ensures !CanTransition(old(objectives)[o].status, status) ==> AsState() == old(AsState())
    {
      if !CanTransition(objectives[o].status, status) {
        return;
      }
      objectives := objectives[o := objectives[o].(status := status)];
      if Terminal(status) {
        var _ := RejectAllPending(o);
      }
    }

    method CheckObjectiveConvergence(o: string, now: int)
      requires o in objectives && objectives[o].status.Open?
      modifies this`objectives, this`proposals
      ensures AsState() == Converge(old(AsState()), o, now)
    {
      var obj := objectives[o];
      if obj.missionCount >= obj.maxMissions {
        TransitionObjective(o, BudgetExhausted);
      } else if obj.maxRuntime > 0 && now - obj.createdAt >= obj.maxRuntime {
        TransitionObjective(o, TimedOut);
      } else if AllEnded(missions, o) && obj.missionCount > 0 && NoneWaiting(proposals, o) {
        TransitionObjective(o, Exhausted);
      }
    }

    method UnfreezeObjective(o: string) returns (ok: bool)
      modifies this`objectives
      ensures ok <==> o in old(objectives) && old(objectives)[o].status.Frozen?
      ensures objectives == if ok then old(objectives)[o := old(objectives)[o].(status := Open)] else old(objectives)
    {
      ok := o in objectives && objectives[o].status.Frozen?;
      if ok {
        objectives := objectives[o := objectives[o].(status := Open)];
      }
    }
  }
}
