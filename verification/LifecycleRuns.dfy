/** One task's row under any interleaving of writers, the queue, the emission of events and a reaper
    that works from a stale list. */
module LifecycleRuns {
  import opened EventTypes
  import opened Lifecycle

  /** A lifecycle event: the status it announces and the incarnation of the row it came from. */
  datatype Notice = Notice(status: Status, incarnation: nat)

  /** `moves` lists the announced transitions in the order they were made; a notice is `held` between
      its transition and its emission; `emitted` is the order on the bus. `seen` is what the reaper last
      loaded, and `wired` says whether it goes through the writer. */
  datatype State = State(
    wired: bool,
    row: Option<Agent>,
    incarnation: nat,
    moves: seq<Notice>,
    held: seq<Notice>,
    emitted: seq<Notice>,
    seen: Option<Agent>
  )

  datatype Step =
    | Enqueue
    | Record(mode: Mode, now: int)
    | Try(move: Move)
    | Reclaim
    | Remove
    | Emit(k: nat)
    | Load
    | Reap(now: int, maxAge: int, reason: string)

  function Init(wired: bool): State {
    State(wired, None, 0, [], [], [], None)
  }

  predicate Enabled(s: State, step: Step) {
    match step
    case Enqueue => s.row.None?
    case Reclaim => s.row.Some? && s.row.value.status.Running?
    case Remove => s.row.Some?
    case Emit(k) => k < |s.held|
    case _ => true
  }

  function Announce(s: State, st: Status): State {
    var n := Notice(st, s.incarnation);
    s.(moves := s.moves + [n], held := s.held + [n])
  }

  function Attempt(s: State, m: Move): State {
    if !Applies(s.row, m) then s
    else
      var s' := s.(row := Some(Moved(s.row.value, m)));
      if Announces(m).Some? then Announce(s', Announces(m).value) else s'
  }

  /** The reaper acts on the entry it loaded: it removes terminal queued agents, and stops expired
      ones, through the writer or else by an unconditional update. */
  function ReapSeen(s: State, now: int, maxAge: int, reason: string): State {
    if s.seen.None? then s
    else if s.seen.value.mode.QueuedMode? && Terminal(s.seen.value.status) then s.(row := None)
    else if !Expired(s.seen.value, now, maxAge) then s
    else if s.wired then Attempt(s, Stop(reason))
    else if s.row.None? then s
    else s.(row := Some(s.row.value.(status := Stopped, output := reason)))
  }

  function Apply(s: State, step: Step): State
    requires Enabled(s, step)
  {
    match step
    case Enqueue => s.(row := Some(Agent(Queued, QueuedMode, 0, "", "")), incarnation := s.incarnation + 1)
    case Record(mode, now) => Announce(s.(row := Some(Agent(Running, mode, now, "", "")),
                                          incarnation := s.incarnation + 1), Running)
    case Try(m) => Attempt(s, m)
    case Reclaim => s.(row := Some(s.row.value.(status := Queued, startTime := 0)))
    case Remove => s.(row := None)
    case Emit(k) => s.(held := s.held[..k] + s.held[k + 1..], emitted := s.emitted + [s.held[k]])
    case Load => s.(seen := s.row)
    case Reap(now, maxAge, reason) => ReapSeen(s, now, maxAge, reason)
  }

  predicate IsRun(s: State, steps: seq<Step>)
    decreases |steps|
  {
    steps == [] || (Enabled(s, steps[0]) && IsRun(Apply(s, steps[0]), steps[1..]))
  }

  function After(s: State, steps: seq<Step>): State
    requires IsRun(s, steps)
    decreases |steps|
  {
    if steps == [] then s else After(Apply(s, steps[0]), steps[1..])
  }

  // --- At most one terminal event per incarnation ---

  /** How many terminal notices of incarnation i a list holds. */
  function Endings(ns: seq<Notice>, i: nat): nat {
    if ns == [] then 0
    else
      var n := ns[|ns| - 1];
      Endings(ns[..|ns| - 1], i) + if Terminal(n.status) && n.incarnation == i then 1 else 0
  }

  lemma {:induction false} EndingsConcat(a: seq<Notice>, b: seq<Notice>, i: nat)
    ensures Endings(a + b, i) == Endings(a, i) + Endings(b, i)
    decreases |b|
  {
    if b == [] {
      assert a + b == a;
    } else {
      assert (a + b)[..|a + b| - 1] == a + b[..|b| - 1];
      EndingsConcat(a, b[..|b| - 1], i);
    }
  }

  lemma EndingsMove(a: seq<Notice>, k: nat, b: seq<Notice>, i: nat)
    requires k < |a|
    ensures Endings(a[..k] + a[k + 1..], i) + Endings(b + [a[k]], i) == Endings(a, i) + Endings(b, i)
  {
    assert a == a[..k] + [a[k]] + a[k + 1..];
    EndingsConcat(a[..k] + [a[k]], a[k + 1..], i);
    EndingsConcat(a[..k], [a[k]], i);
    EndingsConcat(a[..k], a[k + 1..], i);
    EndingsConcat(b, [a[k]], i);
  }

  /** At most one terminal notice of incarnation i, and none before its row has ended. */
  ghost predicate EndsOnce(s: State, i: nat) {
    var n := Endings(s.held, i) + Endings(s.emitted, i);
    && n <= 1
    && (i > s.incarnation ==> n == 0)
    && (i == s.incarnation && s.row.Some? && !Terminal(s.row.value.status) ==> n == 0)
  }

  lemma AttemptEndsOnce(s: State, m: Move, i: nat)
    requires EndsOnce(s, i)
    ensures EndsOnce(Attempt(s, m), i)
  {
    if Applies(s.row, m) && Announces(m).Some? {
      EndingsConcat(s.held, [Notice(Announces(m).value, s.incarnation)], i);
    }
  }

  lemma EmitEndsOnce(s: State, k: nat, i: nat)
    requires k < |s.held| && EndsOnce(s, i)
    ensures EndsOnce(Apply(s, Emit(k)), i)
  {
    EndingsMove(s.held, k, s.emitted, i);
    var s' := Apply(s, Emit(k));
    assert Endings(s'.held, i) + Endings(s'.emitted, i) == Endings(s.held, i) + Endings(s.emitted, i);
  }

  lemma ReapEndsOnce(s: State, now: int, maxAge: int, reason: string, i: nat)
    requires EndsOnce(s, i)
    ensures EndsOnce(ReapSeen(s, now, maxAge, reason), i)
  {
    AttemptEndsOnce(s, Stop(reason), i);
  }

  lemma StepEndsOnce(s: State, step: Step, i: nat)
    requires Enabled(s, step) && EndsOnce(s, i)
    ensures EndsOnce(Apply(s, step), i)
  {
    match step
    case Try(m) => AttemptEndsOnce(s, m, i);
    case Reap(now, maxAge, reason) => ReapEndsOnce(s, now, maxAge, reason, i);
    case Record(_, _) => EndingsConcat(s.held, [Notice(Running, s.incarnation + 1)], i);
    case Emit(k) => EmitEndsOnce(s, k, i);
    case _ =>
  }

  /** In every run, whatever the order of emission, an incarnation announces at most one ending. */
  lemma {:induction false} OneEndingPerIncarnation(s: State, steps: seq<Step>, i: nat)
    requires IsRun(s, steps) && EndsOnce(s, i)
    ensures EndsOnce(After(s, steps), i)
    decreases |steps|
  {
    if steps != [] {
      StepEndsOnce(s, steps[0], i);
      OneEndingPerIncarnation(Apply(s, steps[0]), steps[1..], i);
    }
  }

  lemma OneEnding(wired: bool, steps: seq<Step>, i: nat)
    requires IsRun(Init(wired), steps)
    ensures Endings(After(Init(wired), steps).emitted, i) <= 1
  {
    OneEndingPerIncarnation(Init(wired), steps, i);
  }

  // --- Terminal rows ---

  /** Steps that end an incarnation: a removal, a new recording, or the reaper's sweep of a queued agent. */
  predicate Replaces(s: State, step: Step) {
    || step.Remove? || step.Record?
    || (step.Reap? && s.seen.Some? && s.seen.value.mode.QueuedMode? && Terminal(s.seen.value.status))
  }

  /** No step of the run replaces the row. */
  predicate SameIncarnation(s: State, steps: seq<Step>)
    requires IsRun(s, steps)
    decreases |steps|
  {
    steps == [] || (!Replaces(s, steps[0]) && SameIncarnation(Apply(s, steps[0]), steps[1..]))
  }

  /** With the writer wired, a row that has ended keeps its status and its result until it is replaced,
      however late the transitions and reaps arrive. */
  lemma {:induction false} TerminalAbsorbs(s: State, steps: seq<Step>)
    requires s.wired && s.row.Some? && Terminal(s.row.value.status)
    requires IsRun(s, steps) && SameIncarnation(s, steps)
    ensures After(s, steps).row == s.row
    decreases |steps|
  {
    if steps != [] {
      var s' := Apply(s, steps[0]);
      assert s'.row == s.row && s'.wired;
      TerminalAbsorbs(s', steps[1..]);
    }
  }

  /** A reap from a stale entry leaves an ended row alone exactly when the writer is wired, or the entry
      is not one to stop or to sweep, or the update would write what is there. */
  lemma StaleReap(s: State, now: int, maxAge: int, reason: string)
    requires s.row.Some? && Terminal(s.row.value.status)
    ensures ReapSeen(s, now, maxAge, reason).row == s.row <==>
            || s.seen.None?
            || (!(s.seen.value.mode.QueuedMode? && Terminal(s.seen.value.status))
                && (s.wired || !Expired(s.seen.value, now, maxAge)
                    || (s.row.value.status.Stopped? && s.row.value.output == reason)))
  {
    var a := s.row.value;
    assert a.(status := Stopped, output := reason) == a <==> a.status.Stopped? && a.output == reason;
  }

  /** An agent is loaded by the reaper while it runs, ends, and is reaped. */
  function LateReap(end: Move): seq<Step> {
    [Record(Batch, 0), Load, Try(end), Reap(10, 5, "reaped")]
  }

  lemma LateReapRun(end: Move)
    requires Running in Expected(end) && Terminal(Moved(Agent(Running, Batch, 0, "", ""), end).status)
    ensures IsRun(Init(false), LateReap(end)[..3]) && IsRun(Init(false), LateReap(end))
    ensures After(Init(false), LateReap(end)[..3]).row == Some(Moved(Agent(Running, Batch, 0, "", ""), end))
    ensures After(Init(false), LateReap(end)).row ==
            Some(Moved(Agent(Running, Batch, 0, "", ""), end).(status := Stopped, output := "reaped"))
  {
    var steps := LateReap(end);
    var s1 := Apply(Init(false), steps[0]);
    var s2 := Apply(s1, steps[1]);
    var s3 := Apply(s2, steps[2]);
    var s4 := Apply(s3, steps[3]);
    assert steps[1..] == [steps[1], steps[2], steps[3]] && steps[1..][1..] == [steps[2], steps[3]];
    assert [steps[2], steps[3]][1..] == [steps[3]] && [steps[3]][1..] == [];
    assert IsRun(s3, [steps[3]]) && After(s3, [steps[3]]) == s4;
    assert IsRun(s2, [steps[2], steps[3]]) && After(s2, [steps[2], steps[3]]) == s4;
    assert IsRun(s1, steps[1..]) && After(s1, steps[1..]) == s4;
    assert steps[..3][1..] == [steps[1], steps[2]] && [steps[1], steps[2]][1..] == [steps[2]] && [steps[2]][1..] == [];
    assert IsRun(s2, [steps[2]]) && After(s2, [steps[2]]) == s3;
    assert IsRun(s1, [steps[1], steps[2]]) && After(s1, [steps[1], steps[2]]) == s3;
  }

  /** Without the writer a completed result is lost to a reap that loaded the agent while it ran. */
  lemma UnwiredReapOverwrites()
    ensures IsRun(Init(false), LateReap(Complete("42", "")))
    ensures After(Init(false), LateReap(Complete("42", ""))).row == Some(Agent(Stopped, Batch, 0, "reaped", ""))
  {
    LateReapRun(Complete("42", ""));
  }

  // --- The graph of statuses ---

  /** Queued to running, running to idle and back, and any live status to its ends. */
  predicate Edge(a: Status, b: Status) {
    match a
    case Queued => b.Running? || b.Failed? || b.Stopped?
    case Running => b.Idle? || Terminal(b)
    case Idle => b.Running? || Terminal(b)
    case _ => false
  }

  /** What the reaper's unconditional update adds. */
  predicate ExtraEdge(a: Status, b: Status) {
    (a.Completed? || a.Failed?) && b.Stopped?
  }

  /** The states of a run around step i. */
  lemma {:induction false} RunSplit(s: State, steps: seq<Step>, i: nat)
    requires i < |steps| && IsRun(s, steps)
    ensures IsRun(s, steps[..i]) && IsRun(s, steps[..i + 1]) && Enabled(After(s, steps[..i]), steps[i])
    ensures After(s, steps[..i + 1]) == Apply(After(s, steps[..i]), steps[i])
    decreases |steps|
  {
    if i == 0 {
      assert steps[..1][1..] == [];
    } else {
      RunSplit(Apply(s, steps[0]), steps[1..], i - 1);
      assert steps[..i][1..] == steps[1..][..i - 1] && steps[..i + 1][1..] == steps[1..][..i];
    }
  }

  lemma StepFollowsGraph(s: State, step: Step)
    requires Enabled(s, step)
    ensures var s' := Apply(s, step);
            s.row.Some? && s'.row.Some? && s'.incarnation == s.incarnation && !step.Reclaim?
            && s'.row.value.status != s.row.value.status ==>
              || Edge(s.row.value.status, s'.row.value.status)
              || (!s.wired && step.Reap? && ExtraEdge(s.row.value.status, s'.row.value.status))
  {
  }

  /** In every run: within an incarnation and apart from reclaimed leases, a status that changes follows
      the graph; without the writer a reap may also turn a completed or failed row into a stopped one. */
  lemma StatusesFollowGraph(wired: bool, steps: seq<Step>, i: nat)
    requires i < |steps| && IsRun(Init(wired), steps)
    ensures IsRun(Init(wired), steps[..i]) && IsRun(Init(wired), steps[..i + 1])
    ensures var s, s' := After(Init(wired), steps[..i]), After(Init(wired), steps[..i + 1]);
            s.row.Some? && s'.row.Some? && s'.incarnation == s.incarnation && !steps[i].Reclaim?
            && s'.row.value.status != s.row.value.status ==>
              || Edge(s.row.value.status, s'.row.value.status)
              || (!wired && steps[i].Reap? && ExtraEdge(s.row.value.status, s'.row.value.status))
  {
    RunSplit(Init(wired), steps, i);
    WiringStays(Init(wired), steps[..i]);
    StepFollowsGraph(After(Init(wired), steps[..i]), steps[i]);
  }

  lemma {:induction false} WiringStays(s: State, steps: seq<Step>)
    requires IsRun(s, steps)
    ensures After(s, steps).wired == s.wired
    decreases |steps|
  {
    if steps != [] {
      WiringStays(Apply(s, steps[0]), steps[1..]);
    }
  }

  /** A transition that takes one status to another. */
  function MoveTo(b: Status): Move {
    match b
    case Idle => ToIdle("", "")
    case Completed => Complete("", "")
    case Failed => Fail("", "")
    case _ => Stop("")
  }

  /** The graph is exact for the writer: from any row, some transition leads to another status if and
      only if there is an edge. */
  lemma GraphExact(s: State, b: Status)
    requires s.row.Some? && b != s.row.value.status
    ensures Edge(s.row.value.status, b) <==>
            exists m :: Attempt(s, m).row.Some? && Attempt(s, m).row.value.status == b
  {
    var a := s.row.value.status;
    if Edge(a, b) {
      var m := if b.Running? then (if a.Queued? then Claim(0) else ToRunning) else MoveTo(b);
      assert Attempt(s, m).row.Some? && Attempt(s, m).row.value.status == b;
    }
  }

  /** Without the writer the extra edges are exact too: a run takes each of them. */
  lemma UnwiredExtraEdge(a: Status) returns (end: Move)
    requires ExtraEdge(a, Stopped)
    ensures IsRun(Init(false), LateReap(end)[..3]) && IsRun(Init(false), LateReap(end))
    ensures var s, s' := After(Init(false), LateReap(end)[..3]), After(Init(false), LateReap(end));
            && s.row.Some? && s.row.value.status == a && s'.row.Some? && s'.row.value.status == Stopped
  {
    end := MoveTo(a);
    LateReapRun(end);
  }

  /** The row of an incarnation that is running or idle. */
  ghost predicate LiveAt(wired: bool, steps: seq<Step>, i: nat, incarnation: nat) {
    i <= |steps| && IsRun(Init(wired), steps[..i])
    && var s := After(Init(wired), steps[..i]);
    s.incarnation == incarnation && s.row.Some? && (s.row.value.status.Running? || s.row.value.status.Idle?)
  }

  /** In every run a row that is completed, or idle, was running or idle before in the same incarnation:
      nothing completes straight from the queue. */
  lemma {:induction false} CompletedRan(wired: bool, steps: seq<Step>) returns (i: nat)
    requires IsRun(Init(wired), steps)
    requires var s := After(Init(wired), steps);
             s.row.Some? && (s.row.value.status.Completed? || s.row.value.status.Idle?)
    ensures i < |steps| && LiveAt(wired, steps, i, After(Init(wired), steps).incarnation)
    decreases |steps|
  {
    var n := |steps| - 1;
    assert steps != [];
    assert steps[..n + 1] == steps;
    RunSplit(Init(wired), steps, n);
    var s := After(Init(wired), steps[..n]);
    var s' := Apply(s, steps[n]);
    if s.row == s'.row && s.incarnation == s'.incarnation {
      i := CompletedRan(wired, steps[..n]);
      assert steps[..n][..i] == steps[..i];
    } else {
      i := n;
      assert s.row.Some? && s.incarnation == s'.incarnation;
    }
  }

  /** Within an incarnation of a wired run, and while no lease is reclaimed, every status on the way
      follows from the one before it along the graph, or is the same. */
  lemma {:induction false} StatusesAdvance(s: State, steps: seq<Step>, i: nat)
    requires s.wired && s.row.Some? && IsRun(s, steps) && SameIncarnation(s, steps) && Reclaim !in steps && i < |steps|
    ensures IsRun(s, steps[..i]) && IsRun(s, steps[..i + 1])
    ensures var a, b := After(s, steps[..i]).row, After(s, steps[..i + 1]).row;
            a.Some? && b.Some? && (b.value.status == a.value.status || Edge(a.value.status, b.value.status))
    decreases |steps|
  {
    assert steps[0] in steps;
    if i == 0 {
      assert steps[..1][1..] == [];
    } else {
      var s' := Apply(s, steps[0]);
      StatusesAdvance(s', steps[1..], i - 1);
      assert steps[..i][1..] == steps[1..][..i - 1] && steps[..i + 1][1..] == steps[1..][..i];
    }
  }

  // --- Start times and reaping ---

  predicate IsLive(row: Option<Agent>) {
    row.Some? && (row.value.status.Running? || row.value.status.Idle?)
  }

  /** The time at which a step starts the agent, if it does: a recording, or a claim that succeeds. */
  function StartOf(s: State, step: Step): Option<int> {
    if step.Record? then Some(step.now)
    else if step.Try? && step.move.Claim? && s.row.Some? && s.row.value.status.Queued? then Some(step.move.now)
    else None
  }

  function LastStart(s: State, steps: seq<Step>): Option<int>
    requires IsRun(s, steps)
    decreases |steps|
  {
    if steps == [] then None
    else
      var later := LastStart(Apply(s, steps[0]), steps[1..]);
      if later.Some? then later else StartOf(s, steps[0])
  }

  lemma StartStep(s: State, step: Step)
    requires Enabled(s, step) && IsLive(Apply(s, step).row)
    ensures var t := StartOf(s, step);
            if t.Some? then Apply(s, step).row.value.startTime == t.value
            else IsLive(s.row) && Apply(s, step).row.value.startTime == s.row.value.startTime
  {
  }

  lemma {:induction false} StartFollows(s: State, steps: seq<Step>)
    requires IsRun(s, steps) && IsLive(After(s, steps).row)
    ensures var t, a := LastStart(s, steps), After(s, steps).row.value;
            if t.Some? then a.startTime == t.value else IsLive(s.row) && a.startTime == s.row.value.startTime
    decreases |steps|
  {
    if steps != [] {
      var s' := Apply(s, steps[0]);
      StartFollows(s', steps[1..]);
      if LastStart(s', steps[1..]).None? {
        StartStep(s, steps[0]);
      }
    }
  }

  /** In every run the start time of a running or idle agent is that of its last claim or recording. */
  lemma StartTimeIsLastStart(wired: bool, steps: seq<Step>)
    requires IsRun(Init(wired), steps) && IsLive(After(Init(wired), steps).row)
    ensures LastStart(Init(wired), steps) == Some(After(Init(wired), steps).row.value.startTime)
  {
    StartFollows(Init(wired), steps);
  }

  /** In every run a sweep from a fresh list stops a live agent if and only if more than maxAge has passed
      since its last claim or recording, and it is running or an idle stream agent; otherwise the row
      stays as it is. */
  lemma PromptReapIff(wired: bool, steps: seq<Step>, now: int, maxAge: int, reason: string)
    requires IsRun(Init(wired), steps) && IsLive(After(Init(wired), steps).row)
    ensures LastStart(Init(wired), steps).Some?
    ensures var s, start := After(Init(wired), steps), LastStart(Init(wired), steps).value;
            var a := s.row.value;
            Apply(Apply(s, Load), Reap(now, maxAge, reason)).row ==
            if maxAge > 0 && now - start > maxAge && (a.status.Running? || a.mode.Stream?)
            then Some(Agent(Stopped, a.mode, a.startTime, reason, a.resumeToken))
            else s.row
  {
    StartTimeIsLastStart(wired, steps);
  }

  const SUCCEEDED := [Record(Batch, 0), Load, Remove, Record(Batch, 1000), Reap(1000, 5, "reaped")]

  function SucceededTrace(): seq<State> {
    var first, second := Agent(Running, Batch, 0, "", ""), Agent(Running, Batch, 1000, "", "");
    var n1, n2, n3 := Notice(Running, 1), Notice(Running, 2), Notice(Stopped, 2);
    [ Init(true), State(true, Some(first), 1, [n1], [n1], [], None),
      State(true, Some(first), 1, [n1], [n1], [], Some(first)),
      State(true, None, 1, [n1], [n1], [], Some(first)),
      State(true, Some(second), 2, [n1, n2], [n1, n2], [], Some(first)),
      State(true, Some(second.(status := Stopped, output := "reaped")), 2, [n1, n2, n3], [n1, n2, n3], [],
            Some(first)) ]
  }

  lemma {:induction false} TraceIsRun(trace: seq<State>, steps: seq<Step>)
    requires |trace| == |steps| + 1
    requires forall i :: 0 <= i < |steps| ==> Enabled(trace[i], steps[i]) && trace[i + 1] == Apply(trace[i], steps[i])
    ensures IsRun(trace[0], steps) && After(trace[0], steps) == trace[|steps|]
    decreases |steps|
  {
    if steps != [] {
      forall i | 0 <= i < |steps[1..]|
        ensures Enabled(trace[1..][i], steps[1..][i]) && trace[1..][i + 1] == Apply(trace[1..][i], steps[1..][i])
      {
        assert trace[1..][i] == trace[i + 1] && steps[1..][i] == steps[i + 1] && trace[1..][i + 1] == trace[i + 2];
      }
      TraceIsRun(trace[1..], steps[1..]);
    }
  }

  /** From a stale list the reaper goes by the start time it loaded: in this run it stops, through the
      writer, an agent that was recorded at the very time of the sweep. */
  lemma StaleListStopsSuccessor()
    ensures IsRun(Init(true), SUCCEEDED)
    ensures After(Init(true), SUCCEEDED).row == Some(Agent(Stopped, Batch, 1000, "reaped", ""))
  {
    var t := SucceededTrace();
    assert t[1] == Apply(t[0], SUCCEEDED[0]);
    assert t[2] == Apply(t[1], SUCCEEDED[1]);
    assert t[3] == Apply(t[2], SUCCEEDED[2]);
    assert t[4] == Apply(t[3], SUCCEEDED[3]);
    assert t[5] == Apply(t[4], SUCCEEDED[4]);
    TraceIsRun(t, SUCCEEDED);
  }

  /** What a reap does to a live row, in terms of the entry the reaper loaded. */
  lemma ReapGoesByTheList(s: State, now: int, maxAge: int, reason: string)
    requires IsLive(s.row)
    ensures var a, row' := s.row.value, Apply(s, Reap(now, maxAge, reason)).row;
            && (s.seen.None? ==> row' == s.row)
            && (s.seen.Some? && (s.seen.value.status.Running? || s.seen.value.status.Idle?) ==>
                  var listed := s.seen.value;
                  row' ==
                  if maxAge > 0 && now - listed.startTime > maxAge && (listed.status.Running? || listed.mode.Stream?)
                  then Some(Agent(Stopped, a.mode, a.startTime, reason, a.resumeToken)) else s.row)
  {
  }

  // --- The last announced transition ---

  /** The row agrees with the last announced transition, while it is running, idle or ended. */
  ghost predicate LastMoveShown(s: State) {
    s.row.Some? && !s.row.value.status.Queued? ==>
      && s.moves != []
      && s.moves[|s.moves| - 1] ==
        Notice(if s.row.value.status.Idle? then Running else s.row.value.status, s.incarnation)
  }

  lemma {:induction false} MovesTrackRow(s: State, steps: seq<Step>)
    requires s.wired && IsRun(s, steps) && LastMoveShown(s)
    ensures LastMoveShown(After(s, steps)) && After(s, steps).wired
    decreases |steps|
  {
    if steps != [] {
      MovesTrackRow(Apply(s, steps[0]), steps[1..]);
    }
  }

  // --- The order of emission ---

  /** a may be announced before b: in an earlier incarnation, or as a start in the same one. */
  predicate Precedes(a: Notice, b: Notice) {
    a.incarnation < b.incarnation || (a.incarnation == b.incarnation && a.status.Running?)
  }

  ghost predicate Grouped(ns: seq<Notice>) {
    forall i, j :: 0 <= i < j < |ns| ==> Precedes(ns[i], ns[j])
  }

  /** Incarnations come one after the other; each announces starts and then at most one ending. */
  ghost predicate MovesGrouped(s: State) {
    && Grouped(s.moves)
    && (forall i :: 0 <= i < |s.moves| ==> s.moves[i].incarnation <= s.incarnation)
    && (s.row.Some? && !Terminal(s.row.value.status) ==>
          forall i :: 0 <= i < |s.moves| && s.moves[i].incarnation == s.incarnation ==> s.moves[i].status.Running?)
  }

  lemma AttemptGrouped(s: State, m: Move)
    requires MovesGrouped(s)
    ensures MovesGrouped(Attempt(s, m))
  {
  }

  lemma StepGrouped(s: State, step: Step)
    requires Enabled(s, step) && MovesGrouped(s)
    ensures MovesGrouped(Apply(s, step))
  {
    match step
    case Try(m) => AttemptGrouped(s, m);
    case Reap(_, _, reason) => AttemptGrouped(s, Stop(reason));
    case _ =>
  }

  /** Equal notices are adjacent. */
  lemma BlockOfEquals(ns: seq<Notice>, i: nat, j: nat, k: nat)
    requires Grouped(ns) && i <= j <= k < |ns| && ns[i] == ns[k]
    ensures ns[j] == ns[i]
  {
    assert i < k ==> Precedes(ns[i], ns[k]);
    assert i < j ==> Precedes(ns[i], ns[j]);
    assert j < k ==> Precedes(ns[j], ns[k]);
  }

  /** From where everything was emitted in order, emitting a notice keeps the order if and only if it
      equals the one held longest; and then nothing else changes. */
  lemma EmitOldest(s: State, k: nat)
    requires MovesGrouped(s) && s.emitted + s.held == s.moves && k < |s.held|
    ensures var s' := Apply(s, Emit(k));
            && (s'.emitted <= s'.moves <==> s.held[k] == s.held[0])
            && (s.held[k] == s.held[0] ==> s'.emitted + s'.held == s'.moves)
  {
    var s' := Apply(s, Emit(k));
    var n := |s.emitted|;
    assert s.moves[n] == s.held[0] && s'.emitted[n] == s.held[k];
    if s.held[k] == s.held[0] {
      forall j | 0 <= j <= k ensures s.held[j] == s.held[0] {
        assert s.moves[n + j] == s.held[j] && s.moves[n + k] == s.held[k];
        BlockOfEquals(s.moves, n, n + j, n + k);
      }
      assert s'.held == s.held[1..];
      assert s'.emitted + s'.held == s.moves;
    }
  }

  /** Every emission is of a notice equal to the one held longest. */
  predicate EmitsOldest(s: State, steps: seq<Step>)
    requires IsRun(s, steps)
    decreases |steps|
  {
    steps == []
    || ((steps[0].Emit? ==> s.held[steps[0].k] == s.held[0]) && EmitsOldest(Apply(s, steps[0]), steps[1..]))
  }

  /** What was emitted is a beginning of the transitions, at every moment of the run. */
  predicate AlwaysPrefix(s: State, steps: seq<Step>)
    requires IsRun(s, steps)
    decreases |steps|
  {
    s.emitted <= s.moves && (steps == [] || AlwaysPrefix(Apply(s, steps[0]), steps[1..]))
  }

  lemma {:induction false} PrefixFrom(s: State, steps: seq<Step>)
    requires IsRun(s, steps) && MovesGrouped(s) && s.emitted + s.held == s.moves
    ensures AlwaysPrefix(s, steps) <==> EmitsOldest(s, steps)
    ensures EmitsOldest(s, steps) ==> After(s, steps).emitted + After(s, steps).held == After(s, steps).moves
    decreases |steps|
  {
    if steps != [] {
      var s' := Apply(s, steps[0]);
      StepGrouped(s, steps[0]);
      if steps[0].Emit? {
        EmitOldest(s, steps[0].k);
      }
      if !steps[0].Emit? || s.held[steps[0].k] == s.held[0] {
        assert s'.emitted + s'.held == s'.moves;
        PrefixFrom(s', steps[1..]);
      }
    }
  }

  /** In every run, wired or not, events are on the bus in transition order throughout if and only if
      every writer that emits holds a notice equal to the one held longest. */
  lemma PrefixIffOldest(wired: bool, steps: seq<Step>)
    requires IsRun(Init(wired), steps)
    ensures AlwaysPrefix(Init(wired), steps) <==> EmitsOldest(Init(wired), steps)
    ensures EmitsOldest(Init(wired), steps) ==>
              var s := After(Init(wired), steps); s.emitted + s.held == s.moves
  {
    PrefixFrom(Init(wired), steps);
  }

  /** Always emitting the notice at the head of the line is one way to do it. */
  lemma {:induction false} HeadIsOldest(s: State, steps: seq<Step>)
    requires IsRun(s, steps) && forall i :: 0 <= i < |steps| && steps[i].Emit? ==> steps[i].k == 0
    ensures EmitsOldest(s, steps)
    decreases |steps|
  {
    if steps != [] {
      HeadIsOldest(Apply(s, steps[0]), steps[1..]);
    }
  }

  lemma EmittedIsPrefix(wired: bool, steps: seq<Step>)
    requires IsRun(Init(wired), steps) && forall i :: 0 <= i < |steps| && steps[i].Emit? ==> steps[i].k == 0
    ensures AlwaysPrefix(Init(wired), steps)
  {
    HeadIsOldest(Init(wired), steps);
    PrefixIffOldest(wired, steps);
  }

  const REORDERED := [Record(Batch, 0), Try(Complete("42", "")), Emit(1), Emit(0)]

  /** Nothing in the writer keeps the order: an ending can be emitted before the start it follows. */
  lemma {:induction false} EmissionCanReorder()
    ensures IsRun(Init(true), REORDERED)
    ensures var s := After(Init(true), REORDERED);
            && s.held == []
            && s.row == Some(Agent(Completed, Batch, 0, "42", ""))
            && s.emitted == [Notice(Completed, 1), Notice(Running, 1)]
  {
    var steps := REORDERED;
    var s1 := Apply(Init(true), steps[0]);
    var s2 := Apply(s1, steps[1]);
    var s3 := Apply(s2, steps[2]);
    assert s3.held == [Notice(Running, 1)];
    var s4 := Apply(s3, steps[3]);
    assert steps[1..] == [steps[1], steps[2], steps[3]] && steps[1..][1..] == [steps[2], steps[3]];
    assert [steps[2], steps[3]][1..] == [steps[3]] && [steps[3]][1..] == [];
    assert IsRun(s3, [steps[3]]) && After(s3, [steps[3]]) == s4;
    assert IsRun(s2, [steps[2], steps[3]]) && After(s2, [steps[2], steps[3]]) == s4;
    assert IsRun(s1, steps[1..]) && After(s1, steps[1..]) == s4;
  }
}
