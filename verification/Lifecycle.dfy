/** Agent status transitions: compare-and-set writes followed by event emission, and a reaper that
    works from a stale list (internal/agentlifecycle/writer.go, internal/controlplane/reaper.go). */
module Lifecycle {
  import opened EventTypes

  datatype Status = Queued | Running | Idle | Completed | Failed | Stopped

  predicate Terminal(s: Status) {
    s.Stopped? || s.Failed? || s.Completed?
  }

  datatype Mode = QueuedMode | Stream | Batch

  /** The durable row of an agent. */
  datatype Agent = Agent(status: Status, mode: Mode, startTime: int, output: string, resumeToken: string)

  /** A transition as the writer attempts it. */
  datatype Move =
    | Claim(now: int)
    | ToRunning
    | ToIdle(output: string, token: string)
    | Complete(output: string, token: string)
    | Fail(output: string, token: string)
    | Stop(reason: string)

  function Expected(m: Move): set<Status> {
    match m
    case Claim(_) => {Queued}
    case ToRunning => {Idle}
    case ToIdle(_, _) => {Running}
    case Complete(_, _) => {Running, Idle}
    case Fail(_, _) => {Running, Idle, Queued}
    case Stop(_) => {Queued, Running, Idle}
  }

  /** The row after a successful transition; an empty resume token keeps the stored one. */
  function Moved(a: Agent, m: Move): Agent {
    match m
    case Claim(now) => a.(status := Running, startTime := now)
    case ToRunning => a.(status := Running, output := "")
    case ToIdle(out, token) => WithResult(a, Idle, out, token)
    case Complete(out, token) => WithResult(a, Completed, out, token)
    case Fail(out, token) => WithResult(a, Failed, out, token)
    case Stop(reason) => a.(status := Stopped, output := reason)
  }

  function WithResult(a: Agent, status: Status, output: string, token: string): Agent {
    a.(status := status, output := output, resumeToken := if token == "" then a.resumeToken else token)
  }

  /** The same, field by field: what a transition sets, and that it keeps the rest. */
  predicate Effect(a: Agent, m: Move, b: Agent) {
    && b.mode == a.mode
    && (m.Claim? ==>
          b.status == Running && b.startTime == m.now && b.output == a.output && b.resumeToken == a.resumeToken)
    && (!m.Claim? ==> b.startTime == a.startTime)
    && (m.ToRunning? ==> b.status == Running && b.output == "" && b.resumeToken == a.resumeToken)
    && (m.ToIdle? ==> b.status == Idle)
    && (m.Complete? ==> b.status == Completed)
    && (m.Fail? ==> b.status == Failed)
    && (m.ToIdle? || m.Complete? || m.Fail? ==>
          b.output == m.output && b.resumeToken == if m.token == "" then a.resumeToken else m.token)
    && (m.Stop? ==> b.status == Stopped && b.output == m.reason && b.resumeToken == a.resumeToken)
  }

  /** The status a transition announces on the bus, if it announces one. */
  function Announces(m: Move): Option<Status> {
    match m
    case Claim(_) => Some(Running)
    case ToRunning => None
    case ToIdle(_, _) => None
    case Complete(_, _) => Some(Completed)
    case Fail(_, _) => Some(Failed)
    case Stop(_) => Some(Stopped)
  }

  predicate Applies(row: Option<Agent>, m: Move) {
    row.Some? && row.value.status in Expected(m)
  }

  // --- The writer and the reaper as programs over the store ---

  datatype Sent = Sent(task: string, status: Status)

  datatype Outcome = Done | Skipped | NotAdmitted

  function RunningTasks(agents: map<string, Agent>): set<string> {
    set t | t in agents && agents[t].status.Running?
  }

  /** The reaper's decision about one entry of its list. */
  predicate Expired(a: Agent, now: int, maxAge: int) {
    && (a.status.Running? || (a.mode.Stream? && a.status.Idle?))
    && maxAge > 0 && now - a.startTime > maxAge
  }

  class Writer {
    var agents: map<string, Agent>
    var sent: seq<Sent>
    var maxConcurrent: int

    constructor (limit: int)
      ensures agents == map[] && sent == [] && maxConcurrent == limit
    {
      agents, sent, maxConcurrent := map[], [], limit;
    }

    method CheckSpawnAllowed() returns (ok: bool)
      ensures ok <==> maxConcurrent <= 0 || |RunningTasks(agents)| < maxConcurrent
    {
      if maxConcurrent <= 0 {
        return true;
      }
      var running, todo := 0, agents.Keys;
      ghost var counted: set<string> := {};
      while todo != {}
        invariant todo <= agents.Keys
        invariant counted == RunningTasks(agents) - todo && running == |counted|
        decreases |todo|
      {
        var t :| t in todo;
        if agents[t].status.Running? {
          counted := counted + {t};
          running := running + 1;
        }
        todo := todo - {t};
      }
      ok := running < maxConcurrent;
    }

    /** Records a started agent under the spawn limit, replacing a row of the same task. */
    method RecordAgentStarted(task: string, mode: Mode, now: int) returns (r: Outcome)
      modifies this`agents, this`sent
      ensures r == if maxConcurrent <= 0 || |RunningTasks(old(agents))| < maxConcurrent then Done else NotAdmitted
      ensures r.NotAdmitted? ==> agents == old(agents) && sent == old(sent)
      ensures r.Done? ==> agents == old(agents)[task := Agent(Running, mode, now, "", "")]
      ensures r.Done? ==> sent == old(sent) + [Sent(task, Running)]
      ensures r.Done? && maxConcurrent > 0 ==> |RunningTasks(agents)| <= maxConcurrent
    {
      var ok := CheckSpawnAllowed();
      if !ok {
        return NotAdmitted;
      }
      ghost var before := RunningTasks(agents);
      agents := agents[task := Agent(Running, mode, now, "", "")];
      assert RunningTasks(agents) == before + {task};
      sent := sent + [Sent(task, Running)];
      r := Done;
    }

    /** One compare-and-set transition, with its event when there is one. */
    method Transition(task: string, m: Move) returns (r: Outcome)
      modifies this`agents, this`sent
      ensures r == if task in old(agents) && Applies(Some(old(agents)[task]), m) then Done else Skipped
      ensures r.Skipped? ==> agents == old(agents) && sent == old(sent)
      ensures r.Done? ==> agents == old(agents)[task := Moved(old(agents)[task], m)]
      ensures r.Done? ==> Effect(old(agents)[task], m, agents[task])
      ensures r.Done? ==> sent == old(sent) + if Announces(m).Some? then [Sent(task, Announces(m).value)] else []
    {
      if task !in agents || agents[task].status !in Expected(m) {
        return Skipped;
      }
      agents := agents[task := Moved(agents[task], m)];
      if Announces(m).Some? {
        sent := sent + [Sent(task, Announces(m).value)];
      }
      r := Done;
    }

    /** One sweep of the reaper over a list loaded earlier. */
    method Reap(list: seq<(string, Agent)>, now: int, maxAge: int)
      modifies this`agents, this`sent
      ensures agents == Sweep(old(agents), list, now, maxAge)
      ensures sent == old(sent) + SweepEvents(old(agents), list, now, maxAge)
    {
      for i := 0 to |list|
        invariant agents == Sweep(old(agents), list[..i], now, maxAge)
        invariant sent == old(sent) + SweepEvents(old(agents), list[..i], now, maxAge)
      {
        assert list[..i + 1][..i] == list[..i];
        var (task, a) := list[i];
        if a.mode.QueuedMode? && Terminal(a.status) {
          agents := agents - {task};
        } else if Expired(a, now, maxAge) {
          var _ := Transition(task, Stop("reaped: max_age"));
        }
      }
      assert list[..|list|] == list;
    }
  }

  /** The entry is an expired agent whose row can still be stopped. */
  predicate Stops(agents: map<string, Agent>, task: string, a: Agent, now: int, maxAge: int) {
    Expired(a, now, maxAge) && task in agents && Applies(Some(agents[task]), Stop("reaped: max_age"))
  }

  function SweepOne(agents: map<string, Agent>, task: string, a: Agent, now: int, maxAge: int): map<string, Agent> {
    if a.mode.QueuedMode? && Terminal(a.status) then agents - {task}
    else if Stops(agents, task, a, now, maxAge) then agents[task := Moved(agents[task], Stop("reaped: max_age"))]
    else agents
  }

  /** The lifecycle events of a sweep: one per row it stops. */
  function SweepEvents(agents: map<string, Agent>, list: seq<(string, Agent)>, now: int, maxAge: int): seq<Sent> {
    if list == [] then []
    else
      var front, (task, a) := list[..|list| - 1], list[|list| - 1];
      SweepEvents(agents, front, now, maxAge)
      + if Stops(Sweep(agents, front, now, maxAge), task, a, now, maxAge) then [Sent(task, Stopped)] else []
  }

  function Sweep(agents: map<string, Agent>, list: seq<(string, Agent)>, now: int, maxAge: int): map<string, Agent> {
    if list == [] then agents
    else
      var (task, a) := list[|list| - 1];
      SweepOne(Sweep(agents, list[..|list| - 1], now, maxAge), task, a, now, maxAge)
  }

  /** The list has the task as a terminal queued agent. */
  ghost predicate ListedEnded(list: seq<(string, Agent)>, t: string) {
    exists i :: 0 <= i < |list| && list[i].0 == t && list[i].1.mode.QueuedMode? && Terminal(list[i].1.status)
  }

  /** The list has the task as an expired agent. */
  ghost predicate ListedExpired(list: seq<(string, Agent)>, t: string, now: int, maxAge: int) {
    exists i :: 0 <= i < |list| && list[i].0 == t && Expired(list[i].1, now, maxAge)
  }

  /** A sweep, task by task: rows listed as terminal queued agents are gone; rows that had ended are as
      they were; of the others those listed as expired are stopped and the rest untouched. */
  lemma {:induction false} SweepOutcome(agents: map<string, Agent>, list: seq<(string, Agent)>, now: int, maxAge: int,
                                        t: string)
    ensures var r := Sweep(agents, list, now, maxAge);
            && (t in r <==> t in agents && !ListedEnded(list, t))
            && (t in r ==> r[t] == if !Terminal(agents[t].status) && ListedExpired(list, t, now, maxAge)
                             then Moved(agents[t], Stop("reaped: max_age")) else agents[t])
    decreases |list|
  {
    if list != [] {
      var front, last := list[..|list| - 1], list[|list| - 1];
      SweepOutcome(agents, front, now, maxAge, t);
      ListedStep(list, t, now, maxAge);
    }
  }

  lemma ListedStep(list: seq<(string, Agent)>, t: string, now: int, maxAge: int)
    requires list != []
    ensures var front, last := list[..|list| - 1], list[|list| - 1];
            && (ListedEnded(list, t) <==>
                ListedEnded(front, t) || (last.0 == t && last.1.mode.QueuedMode? && Terminal(last.1.status)))
            && (ListedExpired(list, t, now, maxAge) <==>
                ListedExpired(front, t, now, maxAge) || (last.0 == t && Expired(last.1, now, maxAge)))
  {
    var front := list[..|list| - 1];
    assert forall i :: 0 <= i < |front| ==> front[i] == list[i];
    if i :| 0 <= i < |list| && list[i].0 == t && list[i].1.mode.QueuedMode? && Terminal(list[i].1.status) {
      assert i < |front| ==> front[i] == list[i];
    }
    if i :| 0 <= i < |list| && list[i].0 == t && Expired(list[i].1, now, maxAge) {
      assert i < |front| ==> front[i] == list[i];
    }
  }

  lemma {:induction false} SentOnlyStops(agents: map<string, Agent>, list: seq<(string, Agent)>, now: int,
                                         maxAge: int, i: nat)
    requires i < |SweepEvents(agents, list, now, maxAge)|
    ensures SweepEvents(agents, list, now, maxAge)[i].status == Stopped
    decreases |list|
  {
    var front := list[..|list| - 1];
    if i < |SweepEvents(agents, front, now, maxAge)| {
      SentOnlyStops(agents, front, now, maxAge, i);
    }
  }

  /** A sweep announces a stop for exactly the rows that were live, had not been listed as ended before,
      and were listed as expired. */
  lemma {:induction false} SweepAnnounces(agents: map<string, Agent>, list: seq<(string, Agent)>, now: int,
                                          maxAge: int, t: string)
    requires !ListedEnded(list, t)
    ensures Sent(t, Stopped) in SweepEvents(agents, list, now, maxAge) <==>
            t in agents && !Terminal(agents[t].status) && ListedExpired(list, t, now, maxAge)
    decreases |list|
  {
    if list != [] {
      var front := list[..|list| - 1];
      ListedStep(list, t, now, maxAge);
      SweepAnnounces(agents, front, now, maxAge, t);
      SweepOutcome(agents, front, now, maxAge, t);
    }
  }
}
