/** Objectives written back from lists read earlier: the reaper's timeouts and the controller's convergence
    checks write the whole row they listed (internal/controlplane/reaper.go,
    internal/admission/controller.go, internal/objective/pgstore.go). */
module AdmissionLate {
  import opened EventTypes
  import opened Admission
  import opened AdmissionRuns

  /** The stores, and every copy of an open objective that some list has held so far. */
  datatype Late = Late(s: State, copies: set<(string, Objective)>)

  /** A step that reads what it writes, a listing of the open objectives, or a write of a listed copy. */
  datatype LateStep =
    | Prompt(step: Step)
    | ListOpen
    | LateReap(o: string, copy: Objective, now: int)
    | LateCheck(o: string, copy: Objective, now: int)

  const START := Late(INIT, {})

  predicate Ready(l: Late, step: LateStep) {
    match step
    case Prompt(p) => Enabled(l.s, p)
    case ListOpen => true
    case LateReap(o, copy, _) => (o, copy) in l.copies
    case LateCheck(o, copy, _) => (o, copy) in l.copies
  }

  function OpenCopies(s: State): set<(string, Objective)> {
    set o | o in s.objectives && s.objectives[o].status.Open? :: (o, s.objectives[o])
  }

  /** The row is overwritten with the copy; waiting proposals are rejected as when it closes. */
  function CloseFrom(s: State, o: string, copy: Objective, status: Status): State {
    s.(objectives := s.objectives[o := copy.(status := status)], proposals := RejectWaiting(s.proposals, o))
  }

  /** The reaper's timeout decided and written from a copy. */
  function ReapFrom(s: State, o: string, copy: Objective, now: int): State {
    if copy.maxRuntime <= 0 || now - copy.createdAt <= copy.maxRuntime then s
    else SetObjective(s, o, copy.(status := TimedOut))
  }

  /** The convergence check decided and written from a copy; missions and proposals are read at once. */
  function CheckFrom(s: State, o: string, copy: Objective, now: int): State {
    if copy.missionCount >= copy.maxMissions then CloseFrom(s, o, copy, BudgetExhausted)
    else if copy.maxRuntime > 0 && now - copy.createdAt >= copy.maxRuntime then CloseFrom(s, o, copy, TimedOut)
    else if AllEnded(s.missions, o) && copy.missionCount > 0 && NoneWaiting(s.proposals, o) then
      CloseFrom(s, o, copy, Exhausted)
    else s
  }

  function Do(policy: Policy, l: Late, step: LateStep): Late
    requires Ready(l, step)
  {
    match step
    case Prompt(p) => l.(s := Apply(policy, l.s, p))
    case ListOpen => l.(copies := l.copies + OpenCopies(l.s))
    case LateReap(o, copy, now) => l.(s := ReapFrom(l.s, o, copy, now))
    case LateCheck(o, copy, now) => l.(s := CheckFrom(l.s, o, copy, now))
  }

  predicate IsLateRun(policy: Policy, l: Late, steps: seq<LateStep>)
    decreases |steps|
  {
    steps == [] || (Ready(l, steps[0]) && IsLateRun(policy, Do(policy, l, steps[0]), steps[1..]))
  }

  function LateAfter(policy: Policy, l: Late, steps: seq<LateStep>): Late
    requires IsLateRun(policy, l, steps)
    decreases |steps|
  {
    if steps == [] then l else LateAfter(policy, Do(policy, l, steps[0]), steps[1..])
  }

  // --- What a late write costs, exactly ---

  /** The reaper's write leaves the verdict, the mission counter and the whole row alone exactly when it
      does not fire, or when the row already says what it writes. */
  lemma LateReapExact(s: State, o: string, copy: Objective, now: int)
    requires o in s.objectives
    ensures var row, row' := s.objectives[o], ReapFrom(s, o, copy, now).objectives[o];
            var fires := copy.maxRuntime > 0 && now - copy.createdAt > copy.maxRuntime;
            && (row'.status == row.status <==> !fires || row.status.TimedOut?)
            && (row'.missionCount == row.missionCount <==> !fires || copy.missionCount == row.missionCount)
            && (row' == row <==> !fires || row == copy.(status := TimedOut))
  {
  }

  /** From a copy that is still the row, a late write is a prompt one. */
  lemma CurrentCopyIsPrompt(s: State, o: string, now: int)
    requires o in s.objectives && s.objectives[o].status.Open?
    ensures ReapFrom(s, o, s.objectives[o], now) == TimeOut(s, o, now)
    ensures CheckFrom(s, o, s.objectives[o], now) == Converge(s, o, now)
  {
  }

  // --- What late writes cannot break ---

  /** Copies of the objective are open and have its mission cap, and objectives have names. */
  ghost predicate Copied(l: Late, o: string) {
    && "" !in l.s.objectives
    && forall c :: c in l.copies && c.0 == o ==>
         c.1.status.Open? && o in l.s.objectives && c.1.maxMissions == l.s.objectives[o].maxMissions
  }

  /** The cap holds for the missions themselves; the counter and the breaker's ratio until the end. */
  ghost predicate Capped(policy: Policy, s: State, o: string) {
    if o !in s.objectives then Budget(policy, s, o)
    else
      && Materialised(s.missions, o) <= Max(0, s.objectives[o].maxMissions)
      && (!Terminal(s.objectives[o].status) ==> Budget(policy, s, o))
  }

  lemma PromptCopied(policy: Policy, l: Late, p: Step, o: string)
    requires Enabled(l.s, p) && Copied(l, o)
    ensures Copied(Do(policy, l, Prompt(p)), o)
  {
    var s' := Apply(policy, l.s, p);
    assert o in l.s.objectives ==> o in s'.objectives && s'.objectives[o].maxMissions == l.s.objectives[o].maxMissions;
  }

  lemma ReapCopied(l: Late, x: string, copy: Objective, now: int, o: string)
    requires Copied(l, o) && Copied(l, x) && (x, copy) in l.copies
    ensures Copied(l.(s := ReapFrom(l.s, x, copy, now)), o)
  {
  }

  lemma CheckCopied(l: Late, x: string, copy: Objective, now: int, o: string)
    requires Copied(l, o) && Copied(l, x) && (x, copy) in l.copies
    ensures Copied(l.(s := CheckFrom(l.s, x, copy, now)), o)
  {
  }

  lemma ListCopied(policy: Policy, l: Late, o: string)
    requires Copied(l, o)
    ensures Copied(Do(policy, l, ListOpen), o)
  {
    forall c | c in OpenCopies(l.s) && c.0 == o
      ensures c.1.status.Open? && o in l.s.objectives && c.1 == l.s.objectives[o]
    {
    }
  }

  lemma StepCopied(policy: Policy, l: Late, step: LateStep, o: string)
    requires Ready(l, step) && (forall x :: Copied(l, x))
    ensures Copied(Do(policy, l, step), o)
  {
    match step
    case Prompt(p) => PromptCopied(policy, l, p, o);
    case ListOpen => ListCopied(policy, l, o);
    case LateReap(x, copy, now) => ReapCopied(l, x, copy, now, o);
    case LateCheck(x, copy, now) => CheckCopied(l, x, copy, now, o);
  }

  /** A prompt step materialises nothing for an objective that has ended. */
  lemma EndedCount(policy: Policy, s: State, p: Step, o: string)
    requires Enabled(s, p) && o in s.objectives && o != "" && Terminal(s.objectives[o].status)
    ensures Materialised(Apply(policy, s, p).missions, o) == Materialised(s.missions, o)
  {
    var s' := Apply(policy, s, p);
    match p
    case Move(m, st) => MoveKeepsCount(s.missions, m, st, o);
    case Root(_) => assert s'.missions[..|s.missions|] == s.missions;
    case Judge(pid, env) =>
      if s'.missions != s.missions {
        assert s'.missions[..|s.missions|] == s.missions;
      }
    case _ =>
  }

  lemma PromptCapped(policy: Policy, s: State, p: Step, o: string)
    requires Enabled(s, p) && Capped(policy, s, o) && "" !in s.objectives
    ensures Capped(policy, Apply(policy, s, p), o)
  {
    if o in s.objectives && Terminal(s.objectives[o].status) {
      EndedCount(policy, s, p, o);
      ClosedStep(policy, s, p, o);
      assert Apply(policy, s, p).objectives[o].maxMissions == s.objectives[o].maxMissions;
    } else {
      StepKeepsBudget(policy, s, p, o);
    }
  }

  lemma LateCapped(policy: Policy, s: State, s': State, x: string, o: string)
    requires Capped(policy, s, o) && s'.missions == s.missions && x in s.objectives
    requires s'.objectives == s.objectives || (x in s'.objectives && Terminal(s'.objectives[x].status)
             && s'.objectives[x].maxMissions == s.objectives[x].maxMissions
             && s'.objectives == s.objectives[x := s'.objectives[x]])
    ensures Capped(policy, s', o)
  {
  }

  lemma StepCapped(policy: Policy, l: Late, step: LateStep, o: string)
    requires Ready(l, step) && Capped(policy, l.s, o) && "" !in l.s.objectives
    requires step.LateReap? || step.LateCheck? ==> Copied(l, step.o)
    ensures Capped(policy, Do(policy, l, step).s, o)
  {
    match step
    case Prompt(p) => PromptCapped(policy, l.s, p, o);
    case ListOpen =>
    case LateReap(x, copy, now) => LateCapped(policy, l.s, ReapFrom(l.s, x, copy, now), x, o);
    case LateCheck(x, copy, now) => LateCapped(policy, l.s, CheckFrom(l.s, x, copy, now), x, o);
  }

  lemma {:induction false} LateKeeps(policy: Policy, l: Late, steps: seq<LateStep>, o: string)
    requires IsLateRun(policy, l, steps) && Capped(policy, l.s, o) && forall x :: Copied(l, x)
    ensures Capped(policy, LateAfter(policy, l, steps).s, o)
    decreases |steps|
  {
    if steps != [] {
      assert Copied(l, o) && (steps[0].LateReap? || steps[0].LateCheck? ==> Copied(l, steps[0].o));
      StepCapped(policy, l, steps[0], o);
      forall x ensures Copied(Do(policy, l, steps[0]), x) {
        StepCopied(policy, l, steps[0], x);
      }
      LateKeeps(policy, Do(policy, l, steps[0]), steps[1..], o);
    }
  }

  /** In every run, with lists as stale as can be: no objective gets more missions than its cap, and until
      it ends its counter is exact and within the breaker's ratio. */
  lemma CapSurvivesLateWrites(policy: Policy, steps: seq<LateStep>, o: string)
    requires IsLateRun(policy, START, steps)
    ensures Capped(policy, LateAfter(policy, START, steps).s, o)
  {
    LateKeeps(policy, START, steps, o);
  }

  /** Still ended, and no new mission is for it. */
  ghost predicate StillEnded(s: State, s': State, o: string) {
    && o in s'.objectives && Terminal(s'.objectives[o].status)
    && |s'.missions| >= |s.missions|
    && forall i :: |s.missions| <= i < |s'.missions| ==> s'.missions[i].objective != o
  }

  lemma EndedStep(policy: Policy, l: Late, step: LateStep, o: string)
    requires Ready(l, step) && "" !in l.s.objectives && o in l.s.objectives && Terminal(l.s.objectives[o].status)
    ensures StillEnded(l.s, Do(policy, l, step).s, o)
  {
    if step.Prompt? {
      ClosedStep(policy, l.s, step.step, o);
    }
  }

  lemma StepKeepsObjectives(policy: Policy, l: Late, step: LateStep)
    requires Ready(l, step)
    ensures var s' := Do(policy, l, step).s;
            |s'.missions| >= |l.s.missions|
            && forall i :: 0 <= i < |l.s.missions| ==> s'.missions[i].objective == l.s.missions[i].objective
  {
    if step.Prompt? {
      StepSamePlaces(policy, l.s, step.step);
    }
  }

  lemma {:induction false} EndedFrom(policy: Policy, l: Late, steps: seq<LateStep>, o: string)
    requires IsLateRun(policy, l, steps) && (forall x :: Copied(l, x))
    requires o in l.s.objectives && Terminal(l.s.objectives[o].status)
    ensures StillEnded(l.s, LateAfter(policy, l, steps).s, o)
    decreases |steps|
  {
    if steps != [] {
      assert Copied(l, o);
      var l' := Do(policy, l, steps[0]);
      EndedStep(policy, l, steps[0], o);
      forall x ensures Copied(l', x) {
        StepCopied(policy, l, steps[0], x);
      }
      EndedFrom(policy, l', steps[1..], o);
      MissionsStay(policy, l', steps[1..]);
    }
  }

  lemma {:induction false} MissionsStay(policy: Policy, l: Late, steps: seq<LateStep>)
    requires IsLateRun(policy, l, steps)
    ensures var s' := LateAfter(policy, l, steps).s;
            |s'.missions| >= |l.s.missions|
            && forall i :: 0 <= i < |l.s.missions| ==> s'.missions[i].objective == l.s.missions[i].objective
    decreases |steps|
  {
    if steps != [] {
      StepKeepsObjectives(policy, l, steps[0]);
      MissionsStay(policy, Do(policy, l, steps[0]), steps[1..]);
    }
  }

  lemma {:induction false} RunCopied(policy: Policy, l: Late, steps: seq<LateStep>)
    requires IsLateRun(policy, l, steps) && forall x :: Copied(l, x)
    ensures forall x :: Copied(LateAfter(policy, l, steps), x)
    decreases |steps|
  {
    if steps != [] {
      forall x ensures Copied(Do(policy, l, steps[0]), x) {
        StepCopied(policy, l, steps[0], x);
      }
      RunCopied(policy, Do(policy, l, steps[0]), steps[1..]);
    }
  }

  /** From every reachable state a late write may change which end an objective came to, but an ended one
      stays ended and never gains a mission. */
  lemma EndedForGood(policy: Policy, before: seq<LateStep>, steps: seq<LateStep>, o: string)
    requires IsLateRun(policy, START, before) && IsLateRun(policy, LateAfter(policy, START, before), steps)
    requires var s := LateAfter(policy, START, before).s; o in s.objectives && Terminal(s.objectives[o].status)
    ensures var l := LateAfter(policy, START, before); StillEnded(l.s, LateAfter(policy, l, steps).s, o)
  {
    RunCopied(policy, START, before);
    EndedFrom(policy, LateAfter(policy, START, before), steps, o);
  }

  // --- An answer lost ---

  lemma {:induction false} TraceIsLateRun(policy: Policy, trace: seq<Late>, steps: seq<LateStep>)
    requires |trace| == |steps| + 1
    requires forall i :: 0 <= i < |steps| ==>
               Ready(trace[i], steps[i]) && trace[i + 1] == Do(policy, trace[i], steps[i])
    ensures IsLateRun(policy, trace[0], steps) && LateAfter(policy, trace[0], steps) == trace[|steps|]
    decreases |steps|
  {
    if steps != [] {
      forall i | 0 <= i < |steps[1..]|
        ensures Ready(trace[1..][i], steps[1..][i]) && trace[1..][i + 1] == Do(policy, trace[1..][i], steps[1..][i])
      {
        assert trace[1..][i] == trace[i + 1] && steps[1..][i] == steps[i + 1] && trace[1..][i + 1] == trace[i + 2];
      }
      TraceIsLateRun(policy, trace[1..], steps[1..]);
    }
  }

  /** An objective that times out after 7, with this many missions counted. */
  function Timed(status: Status, missions: nat): Objective {
    Objective(status, 0, 10, 5, 7, 5, missions, 0)
  }

  /** The reaper lists the open objective, a mission is materialised, an agent answers the objective, and
      the reaper writes its copy. */
  const OVERTAKEN := [
    Prompt(Create("o", Timed(Open, 0))), Prompt(Root("o")), Prompt(Submit(Proposed(Waiting))), ListOpen,
    Prompt(Judge(0, SURE)), Prompt(Conclude("o", Answered)), LateReap("o", Timed(Open, 0), 8)]

  function OvertakenTrace(): seq<Late> {
    var w, a, c := [Proposed(Waiting)], [Proposed(Approved)], {("o", Timed(Open, 0))};
    [ START, Late(State(map["o" := Timed(Open, 0)], [], []), {}),
      Late(State(map["o" := Timed(Open, 0)], [ROOT], []), {}),
      Late(State(map["o" := Timed(Open, 0)], [ROOT], w), {}), Late(State(map["o" := Timed(Open, 0)], [ROOT], w), c),
      Late(State(map["o" := Timed(Open, 1)], [ROOT, CHILD], a), c),
      Late(State(map["o" := Timed(Answered, 1)], [ROOT, CHILD], a), c),
      Late(State(map["o" := Timed(TimedOut, 0)], [ROOT, CHILD], a), c) ]
  }

  lemma OvertakenStep(i: nat)
    requires i < 7
    ensures var t := OvertakenTrace(); Ready(t[i], OVERTAKEN[i]) && t[i + 1] == Do(EAGER, t[i], OVERTAKEN[i])
  {
    var t := OvertakenTrace();
    if i == 3 {
      assert OpenCopies(t[3].s) == {("o", Timed(Open, 0))};
    } else if i == 4 {
      CountOfChildren();
    }
  }

  /** A run in which the answer becomes a timeout and the counter forgets a mission. */
  lemma AnswerLostToLateReap()
    ensures IsLateRun(EAGER, START, OVERTAKEN[..6]) && IsLateRun(EAGER, START, OVERTAKEN)
    ensures var s, s' := LateAfter(EAGER, START, OVERTAKEN[..6]).s, LateAfter(EAGER, START, OVERTAKEN).s;
            && s.objectives == map["o" := Timed(Answered, 1)] && s'.objectives == map["o" := Timed(TimedOut, 0)]
            && s'.missions == [ROOT, CHILD]
  {
    var t := OvertakenTrace();
    forall i | 0 <= i < 7 ensures Ready(t[i], OVERTAKEN[i]) && t[i + 1] == Do(EAGER, t[i], OVERTAKEN[i]) {
      OvertakenStep(i);
    }
    TraceIsLateRun(EAGER, t, OVERTAKEN);
    TraceIsLateRun(EAGER, t[..7], OVERTAKEN[..6]);
  }
}
