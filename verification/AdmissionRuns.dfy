/** What every run of the admission controller keeps, interleaved with submissions, findings, mission
    progress, timeouts, verdicts and freeze/unfreeze cycles. */
module AdmissionRuns {
  import opened EventTypes
  import opened Admission

  datatype Step =
    | Create(o: string, objective: Objective)
    | Submit(proposal: Proposal)
    | Judge(pid: nat, env: Env)
    | Check(o: string, now: int)
    | Reap(o: string, now: int)
    | Find(o: string)
    | Move(mission: nat, status: MissionStatus)
    | Root(o: string)
    | Unfreeze(o: string)
    | Conclude(o: string, outcome: Status)

  const INIT := State(map[], [], [])

  predicate IsOpen(s: State, o: string) {
    o in s.objectives && s.objectives[o].status.Open?
  }

  predicate Enabled(s: State, step: Step) {
    match step
    case Create(o, obj) =>
      o != "" && o !in s.objectives && obj.status.Open? && obj.missionCount == 0 && obj.findingCount == 0
    case Submit(p) => p.review.Waiting?
    case Judge(pid, _) => pid < |s.proposals|
    case Check(o, _) => IsOpen(s, o)
    case Reap(o, _) => IsOpen(s, o)
    case Find(o) => o in s.objectives
    case Move(m, _) => m < |s.missions| && Active(s.missions[m])
    case Root(o) => o == "" || IsOpen(s, o)
    case Unfreeze(o) => o in s.objectives && s.objectives[o].status.Frozen?
    case Conclude(o, status) =>
      && (status.Answered? || status.Disproven?)
      && o in s.objectives && CanTransition(s.objectives[o].status, status)
  }

  function SetObjective(s: State, o: string, obj: Objective): State {
    s.(objectives := s.objectives[o := obj])
  }

  function Apply(policy: Policy, s: State, step: Step): State
    requires Enabled(s, step)
  {
    match step
    case Create(o, obj) => SetObjective(s, o, obj)
    case Submit(p) => s.(proposals := s.proposals + [p])
    case Judge(pid, env) => EvaluateOne(s, policy, pid, env)
    case Check(o, now) => Converge(s, o, now)
    case Reap(o, now) => TimeOut(s, o, now)
    case Find(o) => SetObjective(s, o, s.objectives[o].(findingCount := s.objectives[o].findingCount + 1))
    case Move(m, status) => s.(missions := s.missions[m := s.missions[m].(status := status)])
    case Root(o) => s.(missions := s.missions + [Mission(o, None, 0, Pending)])
    case Unfreeze(o) => SetObjective(s, o, s.objectives[o].(status := Open))
    case Conclude(o, status) => SetObjective(s, o, s.objectives[o].(status := status))
  }

  predicate IsRun(policy: Policy, s: State, steps: seq<Step>)
    decreases |steps|, 0
  {
    steps == []
    || (&& IsRun(policy, s, steps[..|steps| - 1])
        && Enabled(After(policy, s, steps[..|steps| - 1]), steps[|steps| - 1]))
  }

  function After(policy: Policy, s: State, steps: seq<Step>): State
    requires IsRun(policy, s, steps)
    decreases |steps|, 1
  {
    if steps == [] then s else Apply(policy, After(policy, s, steps[..|steps| - 1]), steps[|steps| - 1])
  }

  ghost predicate Reachable(policy: Policy, s: State) {
    exists steps :: IsRun(policy, INIT, steps) && After(policy, INIT, steps) == s
  }

  /** The only step that adds a child mission. */
  predicate Materializes(policy: Policy, s: State, step: Step) {
    step.Judge? && step.pid < |s.proposals| && step.env.enqueued
      && Verdict(s, policy, s.proposals[step.pid], step.env).Approve?
  }

  // --- Budgets ---

  /** The missions materialised for an objective. */
  function Materialised(ms: seq<Mission>, o: string): nat {
    if ms == [] then 0
    else
      var m := ms[|ms| - 1];
      Materialised(ms[..|ms| - 1], o) + if m.parent.Some? && m.objective == o then 1 else 0
  }

  function Max(a: int, b: int): int {
    if a < b then b else a
  }

  /** The counter is exact and within the mission cap and the breaker's ratio. */
  ghost predicate Budget(policy: Policy, s: State, o: string) {
    if o !in s.objectives then Materialised(s.missions, o) == 0
    else
      var obj := s.objectives[o];
      && obj.missionCount == Materialised(s.missions, o)
      && obj.missionCount <= Max(0, obj.maxMissions)
      && (policy.breakerRatio >= 1 ==> obj.missionCount <= policy.breakerRatio * Max(1, obj.findingCount))
  }

  lemma {:induction false} MoveKeepsCount(ms: seq<Mission>, i: nat, st: MissionStatus, o: string)
    requires i < |ms|
    ensures Materialised(ms[i := ms[i].(status := st)], o) == Materialised(ms, o)
    decreases |ms|
  {
    var front, ms' := ms[..|ms| - 1], ms[i := ms[i].(status := st)];
    if i < |front| {
      MoveKeepsCount(front, i, st, o);
      assert ms'[..|ms| - 1] == front[i := front[i].(status := st)];
    } else {
      assert ms'[..|ms| - 1] == front;
    }
  }

  lemma ScaledMonotone(k: int, a: int, b: int)
    requires k >= 1 && a <= b
    ensures k * a <= k * b
  {
  }

  lemma ThresholdBound(policy: Policy, findings: nat)
    requires policy.breakerRatio >= 1
    ensures 1 <= policy.breakerRatio * Max(1, findings)
    ensures Threshold(policy, findings) <= policy.breakerRatio * Max(1, findings)
  {
    ScaledMonotone(policy.breakerRatio, 1, Max(1, findings));
  }

  lemma MaterializeKeepsBudget(policy: Policy, s: State, pid: nat, env: Env, o: string)
    requires pid < |s.proposals| && Budget(policy, s, o)
    requires Verdict(s, policy, s.proposals[pid], env).Approve?
    ensures Budget(policy, Materialize(s, pid, true), o)
  {
    assert Materialize(s, pid, true).missions[..|s.missions|] == s.missions;
    if s.proposals[pid].objective == o && policy.breakerRatio >= 1 {
      ThresholdBound(policy, s.objectives[o].findingCount);
    }
  }

  lemma JudgeKeepsBudget(policy: Policy, s: State, pid: nat, env: Env, o: string)
    requires pid < |s.proposals| && Budget(policy, s, o)
    ensures Budget(policy, EvaluateOne(s, policy, pid, env), o)
  {
    if Verdict(s, policy, s.proposals[pid], env).Approve? && env.enqueued {
      MaterializeKeepsBudget(policy, s, pid, env, o);
    }
  }

  lemma StepKeepsBudget(policy: Policy, s: State, step: Step, o: string)
    requires Enabled(s, step) && Budget(policy, s, o)
    ensures Budget(policy, Apply(policy, s, step), o)
  {
    match step
    case Judge(pid, env) => JudgeKeepsBudget(policy, s, pid, env, o);
    case Move(m, st) => MoveKeepsCount(s.missions, m, st, o);
    case Root(_) => assert Apply(policy, s, step).missions[..|s.missions|] == s.missions;
    case Find(x) =>
      if policy.breakerRatio >= 1 {
        var f := s.objectives[x].findingCount;
        ScaledMonotone(policy.breakerRatio, Max(1, f), Max(1, f + 1));
      }
    case _ =>
  }

  /** In every run each objective's mission counter is the number of missions materialised for it, at
      most its cap, and at most the breaker's ratio times its findings (or times one before any). */
  lemma {:induction false} BudgetsHold(policy: Policy, steps: seq<Step>, o: string)
    requires IsRun(policy, INIT, steps)
    ensures Budget(policy, After(policy, INIT, steps), o)
  {
    if steps != [] {
      BudgetsHold(policy, steps[..|steps| - 1], o);
      StepKeepsBudget(policy, After(policy, INIT, steps[..|steps| - 1]), steps[|steps| - 1], o);
    }
  }

  // --- The forest ---

  /** A child comes after its parent, one deeper, and within its objective's depth; roots have depth 0. */
  ghost predicate Placed(s: State, i: nat)
    requires i < |s.missions|
  {
    var m := s.missions[i];
    if m.parent.None? then m.depth == 0
    else
      && m.parent.value < i && m.depth == s.missions[m.parent.value].depth + 1
      && m.objective in s.objectives && m.depth <= s.objectives[m.objective].maxDepth
  }

  ghost predicate Forest(s: State) {
    forall i :: 0 <= i < |s.missions| ==> Placed(s, i)
  }

  /** What the other steps leave: mission placements, and the limits of known objectives. */
  ghost predicate SamePlaces(s: State, s': State) {
    && |s'.missions| >= |s.missions|
    && (forall i :: 0 <= i < |s.missions| ==>
          s'.missions[i].parent == s.missions[i].parent && s'.missions[i].depth == s.missions[i].depth
          && s'.missions[i].objective == s.missions[i].objective)
    && (forall o :: o in s.objectives ==> o in s'.objectives && s'.objectives[o].maxDepth == s.objectives[o].maxDepth
                                          && s'.objectives[o].maxBranching == s.objectives[o].maxBranching)
  }

  lemma StepSamePlaces(policy: Policy, s: State, step: Step)
    requires Enabled(s, step)
    ensures SamePlaces(s, Apply(policy, s, step))
    ensures |Apply(policy, s, step).missions|
            == |s.missions| + if step.Root? || Materializes(policy, s, step) then 1 else 0
  {
  }

  lemma PlacedStays(s: State, s': State, i: nat)
    requires SamePlaces(s, s') && i < |s.missions| && Placed(s, i)
    ensures Placed(s', i)
  {
  }

  lemma StepKeepsForest(policy: Policy, s: State, step: Step)
    requires Enabled(s, step) && Forest(s)
    ensures Forest(Apply(policy, s, step))
  {
    var s' := Apply(policy, s, step);
    StepSamePlaces(policy, s, step);
    forall i | 0 <= i < |s'.missions| ensures Placed(s', i) {
      if i < |s.missions| {
        PlacedStays(s, s', i);
      } else {
        NewMissionPlaced(policy, s, step);
      }
    }
  }

  lemma NewMissionPlaced(policy: Policy, s: State, step: Step)
    requires Enabled(s, step) && (step.Root? || Materializes(policy, s, step))
    ensures |Apply(policy, s, step).missions| == |s.missions| + 1 && Placed(Apply(policy, s, step), |s.missions|)
  {
  }

  /** The number of ancestors. */
  function ChainLength(s: State, i: nat): nat
    requires i < |s.missions|
    decreases i
  {
    var p := s.missions[i].parent;
    if p.None? || p.value >= i then 0 else 1 + ChainLength(s, p.value)
  }

  lemma {:induction false} DepthIsChain(s: State, i: nat)
    requires Forest(s) && i < |s.missions|
    ensures s.missions[i].depth == ChainLength(s, i)
    decreases i
  {
    assert Placed(s, i);
    if s.missions[i].parent.Some? {
      DepthIsChain(s, s.missions[i].parent.value);
    }
  }

  lemma {:induction false} RunKeepsForest(policy: Policy, steps: seq<Step>)
    requires IsRun(policy, INIT, steps)
    ensures Forest(After(policy, INIT, steps))
  {
    if steps != [] {
      RunKeepsForest(policy, steps[..|steps| - 1]);
      StepKeepsForest(policy, After(policy, INIT, steps[..|steps| - 1]), steps[|steps| - 1]);
    }
  }

  /** In every reachable state the missions form a forest: every parent is an earlier mission, the depth is
      the length of the chain of parents, and no materialised mission is deeper than its objective allows. */
  lemma {:induction false} ForestHolds(policy: Policy, s: State, i: nat)
    requires Reachable(policy, s) && i < |s.missions|
    ensures s.missions[i].depth == ChainLength(s, i)
    ensures var m := s.missions[i];
            m.parent.Some? ==>
              m.parent.value < i && m.objective in s.objectives && m.depth <= s.objectives[m.objective].maxDepth
  {
    var steps :| IsRun(policy, INIT, steps) && After(policy, INIT, steps) == s;
    RunKeepsForest(policy, steps);
    DepthIsChain(s, i);
    assert Placed(s, i);
  }

  // --- Branching ---

  /** Every child of p belongs to an objective that allows at most b children. */
  ghost predicate ChildrenAllow(s: State, p: nat, b: nat) {
    forall i :: 0 <= i < |s.missions| && s.missions[i].parent == Some(p) ==>
                  s.missions[i].objective in s.objectives && s.objectives[s.missions[i].objective].maxBranching <= b
  }

  ghost predicate Branching(s: State, p: nat, b: nat) {
    ChildrenAllow(s, p, b) ==> ActiveChildren(s.missions, p) <= b
  }

  lemma {:induction false} MoveActive(ms: seq<Mission>, i: nat, st: MissionStatus, p: nat)
    requires i < |ms| && Active(ms[i])
    ensures ActiveChildren(ms[i := ms[i].(status := st)], p) <= ActiveChildren(ms, p)
    decreases |ms|
  {
    var front, ms' := ms[..|ms| - 1], ms[i := ms[i].(status := st)];
    if i < |front| {
      MoveActive(front, i, st, p);
      assert ms'[..|ms| - 1] == front[i := front[i].(status := st)];
    } else {
      assert ms'[..|ms| - 1] == front;
    }
  }

  /** The number of active children grows only by materialising, and then stays within the limit of
      the objective the new child belongs to. */
  lemma ActiveChildrenStep(policy: Policy, s: State, step: Step, p: nat)
    requires Enabled(s, step)
    ensures var s' := Apply(policy, s, step);
            || ActiveChildren(s'.missions, p) <= ActiveChildren(s.missions, p)
            || (&& Materializes(policy, s, step) && s.proposals[step.pid].parent == p
                && s.proposals[step.pid].objective in s.objectives
                && s'.missions == s.missions + [s'.missions[|s.missions|]]
                && s'.missions[|s.missions|].parent == Some(p)
                && s'.missions[|s.missions|].objective == s.proposals[step.pid].objective
                && ActiveChildren(s'.missions, p) <= s.objectives[s.proposals[step.pid].objective].maxBranching)
  {
    var s' := Apply(policy, s, step);
    if step.Move? {
      MoveActive(s.missions, step.mission, step.status, p);
    } else if step.Root? || Materializes(policy, s, step) {
      assert s'.missions[..|s.missions|] == s.missions;
    }
  }

  lemma StepKeepsBranching(policy: Policy, s: State, step: Step, p: nat, b: nat)
    requires Enabled(s, step) && Forest(s) && Branching(s, p, b)
    ensures Branching(Apply(policy, s, step), p, b)
  {
    var s' := Apply(policy, s, step);
    ActiveChildrenStep(policy, s, step, p);
    StepSamePlaces(policy, s, step);
    if ChildrenAllow(s', p, b) {
      forall i | 0 <= i < |s.missions| && s.missions[i].parent == Some(p)
        ensures s.missions[i].objective in s.objectives && s.objectives[s.missions[i].objective].maxBranching <= b
      {
        assert Placed(s, i);
        assert s'.missions[i].parent == Some(p);
      }
      assert ChildrenAllow(s, p, b);
    }
  }

  /** In every run, if all children of a mission belong to objectives that allow at most b children,
      at most b of them are active. */
  lemma {:induction false} BranchingHolds(policy: Policy, steps: seq<Step>, p: nat, b: nat)
    requires IsRun(policy, INIT, steps)
    ensures Branching(After(policy, INIT, steps), p, b)
  {
    if steps != [] {
      var front := steps[..|steps| - 1];
      BranchingHolds(policy, front, p, b);
      RunKeepsForest(policy, front);
      StepKeepsBranching(policy, After(policy, INIT, front), steps[|steps| - 1], p, b);
    }
  }

  /** In particular, when the children share their parent's objective its own limit holds. */
  lemma SharedObjectiveBranching(policy: Policy, s: State, p: nat)
    requires Reachable(policy, s) && p < |s.missions| && s.missions[p].objective in s.objectives
    requires forall i :: 0 <= i < |s.missions| && s.missions[i].parent == Some(p) ==>
               s.missions[i].objective == s.missions[p].objective
    ensures ActiveChildren(s.missions, p) <= Max(0, s.objectives[s.missions[p].objective].maxBranching)
  {
    var steps :| IsRun(policy, INIT, steps) && After(policy, INIT, steps) == s;
    var b := Max(0, s.objectives[s.missions[p].objective].maxBranching);
    BranchingHolds(policy, steps, p, b);
    assert ChildrenAllow(s, p, b);
  }

  // --- Closed objectives ---

  /** The objective does not reopen: it is terminal, or nobody unfreezes it. */
  ghost predicate StaysClosed(s: State, steps: seq<Step>, o: string) {
    o in s.objectives && (Terminal(s.objectives[o].status) || (s.objectives[o].status.Frozen? && Unfreeze(o) !in steps))
  }

  /** Its status and counter are the same, and no new mission is for it. */
  ghost predicate NothingGained(s: State, s': State, o: string) {
    && o in s.objectives && o in s'.objectives
    && s'.objectives[o].status == s.objectives[o].status
    && s'.objectives[o].missionCount == s.objectives[o].missionCount
    && |s'.missions| >= |s.missions|
    && (forall i :: |s.missions| <= i < |s'.missions| ==> s'.missions[i].objective != o)
  }

  lemma ClosedStep(policy: Policy, s: State, step: Step, o: string)
    requires Enabled(s, step) && o in s.objectives && o != "" && !s.objectives[o].status.Open?
    requires Terminal(s.objectives[o].status) || step != Unfreeze(o)
    ensures NothingGained(s, Apply(policy, s, step), o)
  {
  }

  lemma {:induction false} ClosedFrom(policy: Policy, s: State, steps: seq<Step>, o: string)
    requires IsRun(policy, s, steps) && StaysClosed(s, steps, o) && o != ""
    ensures NothingGained(s, After(policy, s, steps), o)
  {
    if steps != [] {
      var front, last := steps[..|steps| - 1], steps[|steps| - 1];
      assert last in steps && forall x :: x in front ==> x in steps;
      ClosedFrom(policy, s, front, o);
      var t := After(policy, s, front);
      ClosedStep(policy, t, last, o);
      GainedTwice(s, t, Apply(policy, t, last), o);
    }
  }

  /** Objectives have names, so a root mission without one belongs to none. */
  lemma {:induction false} NamesNonEmpty(policy: Policy, steps: seq<Step>)
    requires IsRun(policy, INIT, steps)
    ensures "" !in After(policy, INIT, steps).objectives
  {
    if steps != [] {
      NamesNonEmpty(policy, steps[..|steps| - 1]);
    }
  }

  lemma ReachableNames(policy: Policy, s: State)
    requires Reachable(policy, s)
    ensures "" !in s.objectives
  {
    var steps :| IsRun(policy, INIT, steps) && After(policy, INIT, steps) == s;
    NamesNonEmpty(policy, steps);
  }

  /** From every reachable state: a closed objective gains nothing, whatever the run, a terminal one for
      ever, a frozen one until it is unfrozen. */
  lemma ClosedGainsNothing(policy: Policy, s: State, steps: seq<Step>, o: string)
    requires Reachable(policy, s) && IsRun(policy, s, steps) && StaysClosed(s, steps, o)
    ensures NothingGained(s, After(policy, s, steps), o)
  {
    ReachableNames(policy, s);
    ClosedFrom(policy, s, steps, o);
  }

  lemma GainedTwice(s: State, t: State, u: State, o: string)
    requires NothingGained(s, t, o) && NothingGained(t, u, o)
    requires forall i :: 0 <= i < |t.missions| ==> u.missions[i].objective == t.missions[i].objective
    ensures NothingGained(s, u, o)
  {
  }

  // --- Passes ---

  function Judgements(pids: seq<nat>, envs: seq<Env>): (r: seq<Step>)
    requires |pids| == |envs|
    ensures |r| == |pids| && forall i :: 0 <= i < |r| ==> r[i] == Judge(pids[i], envs[i])
  {
    seq(|pids|, i requires 0 <= i < |pids| => Judge(pids[i], envs[i]))
  }

  lemma RunAppend(policy: Policy, s: State, steps: seq<Step>, step: Step)
    requires IsRun(policy, s, steps) && Enabled(After(policy, s, steps), step)
    ensures IsRun(policy, s, steps + [step])
    ensures After(policy, s, steps + [step]) == Apply(policy, After(policy, s, steps), step)
  {
    assert (steps + [step])[..|steps|] == steps;
  }

  /** A pass of the controller is a run of judgements. */
  lemma {:induction false} PassIsRun(policy: Policy, s: State, pids: seq<nat>, envs: seq<Env>)
    requires |pids| == |envs| && forall i :: 0 <= i < |pids| ==> pids[i] < |s.proposals|
    ensures IsRun(policy, s, Judgements(pids, envs))
    ensures After(policy, s, Judgements(pids, envs)) == Pass(s, policy, pids, envs)
    decreases |pids|
  {
    if pids != [] {
      var n := |pids| - 1;
      PassIsRun(policy, s, pids[..n], envs[..n]);
      RunAppend(policy, s, Judgements(pids[..n], envs[..n]), Judge(pids[n], envs[n]));
      assert Judgements(pids, envs) == Judgements(pids[..n], envs[..n]) + [Judge(pids[n], envs[n])];
    }
  }

  lemma JudgedStays(policy: Policy, s: State, step: Step, pid: nat)
    requires Enabled(s, step) && pid < |s.proposals|
    ensures var s' := Apply(policy, s, step);
            && pid < |s'.proposals| && s'.proposals[pid].objective == s.proposals[pid].objective
            && (!s.proposals[pid].review.Waiting? ==> !s'.proposals[pid].review.Waiting?)
            && (step.Judge? && step.pid == pid ==> !s'.proposals[pid].review.Waiting?)
  {
  }

  /** Whatever is decided, a pass decides every proposal on its list. */
  lemma {:induction false} PassDecides(policy: Policy, s: State, pids: seq<nat>, envs: seq<Env>, k: nat)
    requires |pids| == |envs| && forall i :: 0 <= i < |pids| ==> pids[i] < |s.proposals|
    requires k < |pids|
    ensures !Pass(s, policy, pids, envs).proposals[pids[k]].review.Waiting?
    decreases |pids|
  {
    var n := |pids| - 1;
    var t := Pass(s, policy, pids[..n], envs[..n]);
    if k < n {
      PassDecides(policy, s, pids[..n], envs[..n], k);
    }
    JudgedStays(policy, t, Judge(pids[n], envs[n]), pids[k]);
  }

  /** Once an objective has left open during a pass, no later proposal on the list is materialised for it. */
  lemma {:induction false} StaleListIsHarmless(policy: Policy, s: State, pids: seq<nat>, envs: seq<Env>, o: string)
    requires |pids| == |envs| && forall i :: 0 <= i < |pids| ==> pids[i] < |s.proposals|
    requires Reachable(policy, s) && o in s.objectives && !s.objectives[o].status.Open?
    ensures NothingGained(s, Pass(s, policy, pids, envs), o)
  {
    PassIsRun(policy, s, pids, envs);
    ClosedGainsNothing(policy, s, Judgements(pids, envs), o);
  }

  // --- Frozen until unfrozen, exactly ---

  lemma {:induction false} RunPrefix(policy: Policy, s: State, steps: seq<Step>, n: nat)
    requires IsRun(policy, s, steps) && n <= |steps|
    ensures IsRun(policy, s, steps[..n])
    ensures n < |steps| ==> Enabled(After(policy, s, steps[..n]), steps[n])
    decreases |steps|
  {
    if n == |steps| {
      assert steps[..n] == steps;
    } else {
      var front := steps[..|steps| - 1];
      RunPrefix(policy, s, front, n);
      assert front[..n] == steps[..n];
    }
  }

  /** The objective is open after the first n steps. */
  ghost predicate OpenAfter(policy: Policy, s: State, steps: seq<Step>, n: nat, o: string)
    requires n <= |steps|
  {
    IsRun(policy, s, steps[..n]) && IsOpen(After(policy, s, steps[..n]), o)
  }

  /** A frozen objective is open at some moment of a run if and only if the run unfreezes it. */
  lemma ReopensIffUnfrozen(policy: Policy, s: State, steps: seq<Step>, o: string)
    requires Reachable(policy, s) && IsRun(policy, s, steps) && o in s.objectives && s.objectives[o].status.Frozen?
    ensures (exists n :: 0 <= n <= |steps| && OpenAfter(policy, s, steps, n, o)) <==> Unfreeze(o) in steps
  {
    if Unfreeze(o) in steps {
      var i :| 0 <= i < |steps| && steps[i] == Unfreeze(o);
      RunPrefix(policy, s, steps, i);
      RunPrefix(policy, s, steps, i + 1);
      assert steps[..i + 1][..i] == steps[..i];
      assert OpenAfter(policy, s, steps, i + 1, o);
    } else {
      forall n | 0 <= n <= |steps| ensures !OpenAfter(policy, s, steps, n, o) {
        RunPrefix(policy, s, steps, n);
        assert forall x :: x in steps[..n] ==> x in steps;
        ClosedGainsNothing(policy, s, steps[..n], o);
      }
    }
  }

  /** A list of states linked by enabled steps is a run. */
  lemma {:induction false} TraceIsRun(policy: Policy, trace: seq<State>, steps: seq<Step>)
    requires |trace| == |steps| + 1
    requires forall i :: 0 <= i < |steps| ==>
               Enabled(trace[i], steps[i]) && trace[i + 1] == Apply(policy, trace[i], steps[i])
    ensures IsRun(policy, trace[0], steps) && After(policy, trace[0], steps) == trace[|steps|]
    decreases |steps|
  {
    if steps != [] {
      TraceIsRun(policy, trace[..|steps|], steps[..|steps| - 1]);
    }
  }

  // --- A rejected proposal is materialised ---

  const EAGER := Policy(3, 1)
  const SURE := Env(0, true, true, true)

  function Proposed(r: Review): Proposal {
    Proposal("o", 0, "", 0, r)
  }

  /** An objective with its root mission, `missions` children, and these reviews of its proposals. */
  function Reached(status: Status, findings: nat, missions: seq<Mission>, proposals: seq<Proposal>): State {
    State(map["o" := Objective(status, 0, 10, 5, 0, 5, if missions == [] then 0 else |missions| - 1, findings)],
          missions, proposals)
  }

  const ROOT := Mission("o", None, 0, Pending)
  const CHILD := Mission("o", Some(0), 1, Pending)

  /** The first proposal is materialised. The pass judges the second, which trips the breaker; the
      objective is unfrozen and gains findings before the pass comes to the third. */
  const INTERRUPTED := [
    Create("o", Objective(Open, 0, 10, 5, 0, 5, 0, 0)), Root("o"), Submit(Proposed(Waiting)), Judge(0, SURE),
    Submit(Proposed(Waiting)), Submit(Proposed(Waiting)), Judge(1, SURE), Unfreeze("o"), Find("o"), Find("o"),
    Judge(2, SURE)]

  function InterruptedTrace(): seq<State> {
    var w, r, a := Proposed(Waiting), Proposed(Rejected), Proposed(Approved);
    var ms := [ROOT, CHILD];
    [ INIT, Reached(Open, 0, [], []), Reached(Open, 0, [ROOT], []), Reached(Open, 0, [ROOT], [w]),
      Reached(Open, 0, ms, [a]), Reached(Open, 0, ms, [a, w]), Reached(Open, 0, ms, [a, w, w]),
      Reached(Frozen, 0, ms, [a, r, r]), Reached(Open, 0, ms, [a, r, r]), Reached(Open, 1, ms, [a, r, r]),
      Reached(Open, 2, ms, [a, r, r]), Reached(Open, 2, [ROOT, CHILD, CHILD], [a, r, a]) ]
  }

  lemma CountOfChildren()
    ensures ActiveChildren([ROOT], 0) == 0 && ActiveChildren([ROOT, CHILD], 0) == 1
  {
    assert [ROOT][..0] == [] && [ROOT, CHILD][..1] == [ROOT];
  }

  lemma InterruptedStart()
    ensures var t := InterruptedTrace();
            forall i :: 0 <= i < 4 ==>
              Enabled(t[i], INTERRUPTED[i]) && t[i + 1] == Apply(EAGER, t[i], INTERRUPTED[i])
  {
    CountOfChildren();
    var t := InterruptedTrace();
    assert t[1] == Apply(EAGER, t[0], INTERRUPTED[0]);
    assert t[2] == Apply(EAGER, t[1], INTERRUPTED[1]);
    assert t[3] == Apply(EAGER, t[2], INTERRUPTED[2]);
    assert t[4] == Apply(EAGER, t[3], INTERRUPTED[3]);
  }

  lemma InterruptedFreeze()
    ensures var t := InterruptedTrace();
            forall i :: 4 <= i < 8 ==>
              Enabled(t[i], INTERRUPTED[i]) && t[i + 1] == Apply(EAGER, t[i], INTERRUPTED[i])
  {
    CountOfChildren();
    var t := InterruptedTrace();
    assert t[5] == Apply(EAGER, t[4], INTERRUPTED[4]);
    assert t[6] == Apply(EAGER, t[5], INTERRUPTED[5]);
    assert RejectWaiting(t[6].proposals, "o") == t[7].proposals;
    assert t[7] == Apply(EAGER, t[6], INTERRUPTED[6]);
    assert t[8] == Apply(EAGER, t[7], INTERRUPTED[7]);
  }

  lemma InterruptedEnd()
    ensures var t := InterruptedTrace();
            forall i :: 8 <= i < 11 ==>
              Enabled(t[i], INTERRUPTED[i]) && t[i + 1] == Apply(EAGER, t[i], INTERRUPTED[i])
  {
    CountOfChildren();
    var t := InterruptedTrace();
    assert t[9] == Apply(EAGER, t[8], INTERRUPTED[8]);
    assert t[10] == Apply(EAGER, t[9], INTERRUPTED[9]);
    assert t[11] == Apply(EAGER, t[10], INTERRUPTED[10]);
  }

  /** Unfreezing during a pass breaks the claim about stale lists: in this run from the initial state, a
      proposal that the freeze rejected is judged again and materialised, because approval does not
      look at its review. */
  lemma UnfrozenListMaterialises()
    ensures IsRun(EAGER, INIT, INTERRUPTED[..10]) && IsRun(EAGER, INIT, INTERRUPTED)
    ensures var s, s' := After(EAGER, INIT, INTERRUPTED[..10]), After(EAGER, INIT, INTERRUPTED);
            && s.proposals[2].review.Rejected? && s'.proposals[2].review.Approved?
            && s'.missions == s.missions + [CHILD]
  {
    InterruptedStart();
    InterruptedFreeze();
    InterruptedEnd();
    TraceIsRun(EAGER, InterruptedTrace(), INTERRUPTED);
    TraceIsRun(EAGER, InterruptedTrace()[..11], INTERRUPTED[..10]);
  }
}
