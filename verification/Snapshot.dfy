/** The in-memory projection of agent state from events
    (internal/events/snapshotsink.go, internal/events/snapshot.go). */
module Snapshot {
  import opened EventTypes
  import opened Strings
  import L = Lifecycle
  import R = LifecycleRuns

  /** A snapshot; no status until a lifecycle event was projected, and 0 is the zero time. */
  datatype Snap = Snap(
    status: Option<L.Status>,
    phase: string,
    tool: string,
    backend: string,
    podName: string,
    excerpt: string,
    startedAt: int,
    heartbeatAt: int,
    eventAt: int,
    missionId: int,
    objectiveId: string,
    terminalAt: int
  )

  const FRESH := Snap(None, "", "", "", "", "", 0, 0, 0, 0, "", 0)

  /** The status a lifecycle event announces; None for every other event. */
  function Announced(e: Event): Option<L.Status> {
    if e.action == "lifecycle.started" then Some(L.Running)
    else if e.action == "lifecycle.completed" then Some(L.Completed)
    else if e.action == "lifecycle.failed" then Some(L.Failed)
    else if e.action == "lifecycle.stopped" then Some(L.Stopped)
    else None
  }

  function Attr(e: Event, key: string): (v: string)
    ensures key in e.attrs ==> v == e.attrs[key]
    ensures key !in e.attrs ==> v == ""
  {
    if key in e.attrs then e.attrs[key] else ""
  }

  /** The attribute, or the default when it is absent or blank. */
  function AttrOr(e: Event, key: string, default: string): string {
    if Trim(Attr(e, key)) != "" then Attr(e, key) else default
  }

  /** Every event leaves its time, and its mission and objective when it carries them. */
  function Touch(s: Snap, e: Event): Snap {
    s.(eventAt := e.time,
       missionId := if e.missionId != 0 then e.missionId else s.missionId,
       objectiveId := if e.objectiveId != "" then e.objectiveId else s.objectiveId)
  }

  /** A heartbeat sets the phase only over a coarse one, and the tool only when it carries one. */
  function Heartbeat(s: Snap, e: Event): Snap {
    var coarse := s.phase == "" || s.phase == "executing" || s.phase == "idle";
    s.(heartbeatAt := e.time,
       phase := if Attr(e, "phase") != "" && coarse then Attr(e, "phase") else s.phase,
       tool := if Attr(e, "tool") != "" then Attr(e, "tool") else s.tool)
  }

  function Message(s: Snap, e: Event): Snap {
    var text := if Attr(e, "text_preview") != "" then Attr(e, "text_preview") else e.detail;
    if text == "" then s else s.(excerpt := if |text| > 256 then text[..256] else text)
  }

  function Started(s: Snap, e: Event): Snap {
    s.(status := Some(L.Running), phase := "executing",
       startedAt := if s.startedAt == 0 then e.time else s.startedAt,
       backend := if Attr(e, "backend") != "" then Attr(e, "backend") else s.backend,
       podName := if Attr(e, "pod_name") != "" then Attr(e, "pod_name") else s.podName)
  }

  /** Events that are not about the lifecycle: activity inside the agent. */
  function Activity(s: Snap, e: Event): Snap {
    if e.action == "heartbeat" then Heartbeat(s, e)
    else if e.action == "tool.started" then s.(tool := AttrOr(e, "tool_name", ""), phase := "tool_use")
    else if e.action == "tool.completed" then s.(tool := "", phase := "executing")
    else if e.action == "message.delta" || e.action == "message.completed" then Message(s, e)
    else if e.action == "command.started" || e.action == "turn.completed" then s.(phase := "executing")
    else if e.action == "turn.started" then s.(phase := "thinking")
    else s
  }

  function Project(s: Snap, e: Event): Snap {
    var t := Touch(s, e);
    var a := Announced(e);
    if a.None? then Activity(t, e)
    else if a.value.Running? then Started(t, e)
    else t.(status := a, phase := "done", tool := "", terminalAt := e.time)
  }

  predicate IsTerminal(s: Snap) {
    s.status.Some? && L.Terminal(s.status.value)
  }

  predicate Ends(e: Event) {
    Announced(e).Some? && L.Terminal(Announced(e).value)
  }

  // --- What happens to one task's snapshot ---

  datatype Op = Handle(event: Event) | Drop | Cleanup(now: int) | Check(now: int)

  /** No heartbeat for three intervals. */
  predicate Overdue(s: Snap, interval: int, now: int) {
    !IsTerminal(s) && s.heartbeatAt != 0 && now - s.heartbeatAt > 3 * interval
  }

  predicate Stale(s: Snap, ttl: int, now: int) {
    IsTerminal(s) && s.terminalAt != 0 && now - s.terminalAt > ttl
  }

  function HandleOne(snap: Option<Snap>, e: Event): Option<Snap> {
    if snap.Some? then Some(Project(snap.value, e))
    else if Ends(e) then None
    else Some(Project(FRESH, e))
  }

  function CheckOne(snap: Option<Snap>, interval: int, now: int): Option<Snap> {
    var s := if snap.Some? then snap.value else FRESH;
    Some(if Overdue(s, interval, now) then s.(phase := "unresponsive") else s)
  }

  function Do(snap: Option<Snap>, op: Op, ttl: int, interval: int): Option<Snap> {
    match op
    case Handle(e) => HandleOne(snap, e)
    case Drop => None
    case Cleanup(now) => if snap.Some? && Stale(snap.value, ttl, now) then None else snap
    case Check(now) => CheckOne(snap, interval, now)
  }

  function Run(ops: seq<Op>, ttl: int, interval: int): Option<Snap> {
    if ops == [] then None else Do(Run(ops[..|ops| - 1], ttl, interval), ops[|ops| - 1], ttl, interval)
  }

  // --- The store and the sink ---

  const DEFAULT_TTL := 1_800_000_000_000
  const DEFAULT_INTERVAL := 15_000_000_000

  class SnapshotStore {
    var snapshots: map<string, Snap>
    const ttl: int
    const interval: int

    constructor (ttl: int, interval: int)
      ensures snapshots == map[]
      ensures this.ttl == if ttl == 0 then 1_800_000_000_000 else ttl
      ensures this.interval == if interval == 0 then 15_000_000_000 else interval
    {
      snapshots := map[];
      this.ttl := if ttl == 0 then DEFAULT_TTL else ttl;
      this.interval := if interval == 0 then DEFAULT_INTERVAL else interval;
    }

    function Get(task: string): Option<Snap> reads this {
      if task in snapshots then Some(snapshots[task]) else None
    }

    method HandleEvent(e: Event)
      modifies this`snapshots
      ensures e.task == "" ==> snapshots == old(snapshots)
      ensures e.task != "" ==> Get(e.task) == HandleOne(old(Get(e.task)), e)
      ensures snapshots - {e.task} == old(snapshots) - {e.task}
    {
      if e.task == "" {
        return;
      }
      if e.task in snapshots {
        snapshots := snapshots[e.task := Project(snapshots[e.task], e)];
      } else if !Ends(e) {
        snapshots := snapshots[e.task := Project(FRESH, e)];
      }
    }

    method CheckUnresponsive(task: string, now: int) returns (marked: bool)
      modifies this`snapshots
      ensures Get(task) == CheckOne(old(Get(task)), interval, now)
      ensures snapshots - {task} == old(snapshots) - {task}
      ensures marked <==>
              && old(Get(task)).Some? && Overdue(old(Get(task)).value, interval, now)
              && old(Get(task)).value.phase != "unresponsive"
    {
      var s := if task in snapshots then snapshots[task] else FRESH;
      marked := Overdue(s, interval, now) && s.phase != "unresponsive";
      snapshots := snapshots[task := if marked then s.(phase := "unresponsive") else s];
    }

    method RemoveSnapshot(task: string)
      modifies this`snapshots
      ensures snapshots == old(snapshots) - {task}
    {
      snapshots := snapshots - {task};
    }

    /** Removes the snapshots that have been terminal for longer than the time to live. */
    method CleanUp(now: int) returns (removed: nat)
      modifies this`snapshots
      ensures snapshots == map t | t in old(snapshots) && !Stale(old(snapshots)[t], ttl, now) :: old(snapshots)[t]
      ensures removed == |old(snapshots)| - |snapshots|
    {
      removed := 0;
      var todo := snapshots.Keys;
      while todo != {}
        invariant todo <= snapshots.Keys <= old(snapshots).Keys
        invariant forall t :: t in snapshots ==> snapshots[t] == old(snapshots)[t]
        invariant forall t :: t in old(snapshots) && t !in todo ==>
                    (t in snapshots <==> !Stale(old(snapshots)[t], ttl, now))
        invariant removed == |old(snapshots)| - |snapshots|
        decreases |todo|
      {
        var t :| t in todo;
        if Stale(snapshots[t], ttl, now) {
          ghost var before := snapshots;
          snapshots := snapshots - {t};
          assert snapshots.Keys == before.Keys - {t};
          assert |snapshots.Keys| == |before.Keys| - 1;
          removed := removed + 1;
        }
        todo := todo - {t};
      }
    }
  }

  // --- What each event leaves ---

  /** What every event leaves: its time, and its mission and objective when it carries them. */
  ghost predicate Correlated(s: Snap, e: Event, t: Snap) {
    && t.eventAt == e.time
    && (e.missionId != 0 ==> t.missionId == e.missionId) && (e.missionId == 0 ==> t.missionId == s.missionId)
    && (e.objectiveId != "" ==> t.objectiveId == e.objectiveId)
    && (e.objectiveId == "" ==> t.objectiveId == s.objectiveId)
  }

  lemma EveryEventCorrelates(s: Snap, e: Event)
    ensures Correlated(s, e, Project(s, e))
  {
  }

  /** Only heartbeats move the heartbeat time; a start sets the start time once and for all. */
  lemma TimesProjected(s: Snap, e: Event)
    ensures Project(s, e).heartbeatAt == if e.action == "heartbeat" then e.time else s.heartbeatAt
    ensures Project(s, e).startedAt ==
            if e.action == "lifecycle.started" && s.startedAt == 0 then e.time else s.startedAt
    ensures Project(s, e).terminalAt ==
            if (|| e.action == "lifecycle.completed" || e.action == "lifecycle.failed"
                || e.action == "lifecycle.stopped") then e.time else s.terminalAt
  {
  }

  /** The status an event sets, by its action. */
  lemma StatusProjected(s: Snap, e: Event)
    ensures e.action == "lifecycle.started" ==> Project(s, e).status == Some(L.Running)
    ensures e.action == "lifecycle.completed" ==> Project(s, e).status == Some(L.Completed)
    ensures e.action == "lifecycle.failed" ==> Project(s, e).status == Some(L.Failed)
    ensures e.action == "lifecycle.stopped" ==> Project(s, e).status == Some(L.Stopped)
    ensures (&& e.action != "lifecycle.started" && e.action != "lifecycle.completed"
             && e.action != "lifecycle.failed" && e.action != "lifecycle.stopped") ==>
              Project(s, e).status == s.status
  {
  }

  /** The phase: set by tool, command, turn and lifecycle events; a heartbeat changes only a coarse one. */
  lemma PhaseProjected(s: Snap, e: Event)
    ensures e.action == "tool.started" ==> Project(s, e).phase == "tool_use"
    ensures e.action == "turn.started" ==> Project(s, e).phase == "thinking"
    ensures (|| e.action == "tool.completed" || e.action == "command.started" || e.action == "turn.completed"
             || e.action == "lifecycle.started") ==> Project(s, e).phase == "executing"
    ensures (|| e.action == "lifecycle.completed" || e.action == "lifecycle.failed"
             || e.action == "lifecycle.stopped") ==> Project(s, e).phase == "done"
    ensures e.action == "heartbeat" ==>
              Project(s, e).phase ==
              if Attr(e, "phase") != "" && (s.phase == "" || s.phase == "executing" || s.phase == "idle")
              then Attr(e, "phase") else s.phase
    ensures e.action == "message.delta" || e.action == "message.completed" ==> Project(s, e).phase == s.phase
  {
  }

  /** The tool: set by a tool's start, cleared by its end and by the agent's; a heartbeat never clears it. */
  lemma ToolProjected(s: Snap, e: Event)
    ensures e.action == "tool.started" ==>
              Project(s, e).tool == if Trim(Attr(e, "tool_name")) == "" then "" else Attr(e, "tool_name")
    ensures e.action == "tool.completed" ==> Project(s, e).tool == ""
    ensures (|| e.action == "lifecycle.completed" || e.action == "lifecycle.failed"
             || e.action == "lifecycle.stopped") ==> Project(s, e).tool == ""
    ensures e.action == "heartbeat" ==>
              Project(s, e).tool == if Attr(e, "tool") == "" then s.tool else Attr(e, "tool")
    ensures (|| e.action == "lifecycle.started" || e.action == "message.delta" || e.action == "message.completed"
             || e.action == "command.started" || e.action == "turn.started" || e.action == "turn.completed") ==>
              Project(s, e).tool == s.tool
  {
  }

  /** The excerpt: the first 256 characters of a message's preview, or of its detail without one; nothing
      but a message with text changes it. */
  lemma ExcerptProjected(s: Snap, e: Event)
    ensures var message := e.action == "message.delta" || e.action == "message.completed";
            var text := if Attr(e, "text_preview") != "" then Attr(e, "text_preview") else e.detail;
            && (!message || text == "" ==> Project(s, e).excerpt == s.excerpt)
            && (message && text != "" ==>
                  && Project(s, e).excerpt <= text
                  && |Project(s, e).excerpt| == if |text| > 256 then 256 else |text|)
  {
  }

  /** The place: a start sets the backend and the pod it names; nothing else does. */
  lemma PlaceProjected(s: Snap, e: Event)
    ensures var start := e.action == "lifecycle.started";
            && Project(s, e).backend ==
               (if start && Attr(e, "backend") != "" then Attr(e, "backend") else s.backend)
            && Project(s, e).podName ==
               (if start && Attr(e, "pod_name") != "" then Attr(e, "pod_name") else s.podName)
  {
  }

  /** A check marks a snapshot that is not terminal when its last heartbeat is over three intervals old. */
  lemma CheckMarks(snap: Option<Snap>, interval: int, now: int)
    ensures var s := if snap.Some? then snap.value else FRESH;
            var ended := s.status == Some(L.Completed) || s.status == Some(L.Failed) || s.status == Some(L.Stopped);
            CheckOne(snap, interval, now) ==
            if !ended && s.heartbeatAt != 0 && now - s.heartbeatAt > 3 * interval
            then Some(s.(phase := "unresponsive")) else Some(s)
  {
  }

  /** A cleanup removes a snapshot that ended at a known time more than the time to live ago. */
  lemma CleanupDrops(s: Snap, ttl: int, interval: int, now: int)
    ensures Do(Some(s), Cleanup(now), ttl, interval).None? <==>
            && (s.status == Some(L.Completed) || s.status == Some(L.Failed) || s.status == Some(L.Stopped))
            && s.terminalAt != 0 && now - s.terminalAt > ttl
  {
  }

  // --- The projected status ---

  lemma ProjectedStatus(s: Snap, e: Event)
    ensures Project(s, e).status == if Announced(e).Some? then Announced(e) else s.status
    ensures Project(s, e).terminalAt == if Ends(e) then e.time else s.terminalAt
  {
  }

  /** The status announced by the last lifecycle event among the operations. */
  function LastAnnounced(ops: seq<Op>): Option<L.Status> {
    if ops == [] then None
    else
      var op := ops[|ops| - 1];
      if op.Handle? && Announced(op.event).Some? then Announced(op.event) else LastAnnounced(ops[..|ops| - 1])
  }

  /** The snapshot exists after every prefix of n or more operations. */
  ghost predicate Kept(ops: seq<Op>, n: nat, ttl: int, interval: int) {
    forall k :: n <= k <= |ops| ==> Run(ops[..k], ttl, interval).Some?
  }

  lemma KeptFront(ops: seq<Op>, n: nat, ttl: int, interval: int)
    requires n < |ops| && Kept(ops, n, ttl, interval)
    ensures Kept(ops[..|ops| - 1], n, ttl, interval)
    ensures Run(ops[..|ops| - 1], ttl, interval).Some? && Run(ops, ttl, interval).Some?
  {
    var front := ops[..|ops| - 1];
    forall k | n <= k <= |front| ensures Run(front[..k], ttl, interval).Some? {
      assert front[..k] == ops[..k];
    }
    assert ops[..|ops|] == ops && front[..|front|] == front;
  }

  /** While a snapshot is kept, its status follows the last lifecycle event. */
  lemma {:induction false} StatusFollows(ops: seq<Op>, n: nat, ttl: int, interval: int)
    requires n <= |ops| && Kept(ops, n, ttl, interval)
    ensures Run(ops[..n], ttl, interval).Some? && Run(ops, ttl, interval).Some?
    ensures var last := LastAnnounced(ops[n..]);
            Run(ops, ttl, interval).value.status == if last.Some? then last
              else Run(ops[..n], ttl, interval).value.status
    decreases |ops| - n
  {
    assert ops[..|ops|] == ops;
    if n < |ops| {
      var front := ops[..|ops| - 1];
      KeptFront(ops, n, ttl, interval);
      StatusFollows(front, n, ttl, interval);
      assert front[..n] == ops[..n] && front[n..] == ops[n..][..|ops[n..]| - 1];
      assert ops[n..][|ops[n..]| - 1] == ops[|ops| - 1];
      if ops[|ops| - 1].Handle? {
        ProjectedStatus(Run(front, ttl, interval).value, ops[|ops| - 1].event);
      }
    }
  }

  /** For any operations: a snapshot created by operation c and kept since has the status of the last
      lifecycle event projected since its creation, none if there was none. */
  lemma StatusSinceCreation(ops: seq<Op>, c: nat, ttl: int, interval: int)
    requires c < |ops| && Run(ops[..c], ttl, interval).None? && Kept(ops, c + 1, ttl, interval)
    ensures Run(ops, ttl, interval).Some? && Run(ops, ttl, interval).value.status == LastAnnounced(ops[c..])
  {
    StatusFollows(ops, c + 1, ttl, interval);
    assert ops[..c + 1][..c] == ops[..c];
    LastOfConcat(ops[c..c + 1], ops[c + 1..]);
    assert ops[c..c + 1] + ops[c + 1..] == ops[c..];
    assert LastAnnounced([]) == None;
    assert LastAnnounced([ops[c]]) == if ops[c].Handle? then Announced(ops[c].event) else None;
    assert ops[c..c + 1] == [ops[c]];
    if ops[c].Handle? {
      ProjectedStatus(FRESH, ops[c].event);
    }
  }

  lemma {:induction false} LastOfConcat(a: seq<Op>, b: seq<Op>)
    ensures LastAnnounced(a + b) == if LastAnnounced(b).Some? then LastAnnounced(b) else LastAnnounced(a)
    decreases |b|
  {
    if b == [] {
      assert a + b == a;
    } else {
      assert (a + b)[..|a + b| - 1] == a + b[..|b| - 1];
      LastOfConcat(a, b[..|b| - 1]);
    }
  }

  /** A terminal event never creates a snapshot. */
  lemma {:induction false} TerminalNeverCreates(ops: seq<Op>, e: Event, ttl: int, interval: int)
    requires Ends(e)
    ensures Run(ops + [Handle(e)], ttl, interval).Some? <==> Run(ops, ttl, interval).Some?
  {
    assert (ops + [Handle(e)])[..|ops|] == ops;
  }

  /** A terminal snapshot carries the time of the event that ended it, so cleaning up is decided by the
      last lifecycle event alone. */
  ghost predicate Dated(s: Snap, ops: seq<Op>) {
    IsTerminal(s) ==> exists i :: 0 <= i < |ops| && Ended(ops, i, s)
  }

  ghost predicate Ended(ops: seq<Op>, i: nat, s: Snap)
    requires i < |ops|
  {
    && ops[i].Handle? && Announced(ops[i].event) == s.status && s.terminalAt == ops[i].event.time
    && (forall j :: i < j < |ops| && ops[j].Handle? ==> Announced(ops[j].event).None?)
  }

  lemma DatedStays(s: Snap, t: Snap, ops: seq<Op>, op: Op)
    requires Dated(s, ops) && t.status == s.status && t.terminalAt == s.terminalAt
    requires op.Handle? ==> Announced(op.event).None?
    ensures Dated(t, ops + [op])
  {
    if IsTerminal(t) {
      var i :| 0 <= i < |ops| && Ended(ops, i, s);
      assert Ended(ops + [op], i, t);
    }
  }

  lemma DatedHandle(snap: Option<Snap>, ops: seq<Op>, e: Event)
    requires snap.Some? ==> Dated(snap.value, ops)
    ensures HandleOne(snap, e).Some? ==> Dated(HandleOne(snap, e).value, ops + [Handle(e)])
  {
    var s := if snap.Some? then snap.value else FRESH;
    ProjectedStatus(s, e);
    if Announced(e).None? {
      DatedStays(s, Project(s, e), ops, Handle(e));
    } else if Ends(e) {
      assert Ended(ops + [Handle(e)], |ops|, Project(s, e));
    }
  }

  lemma {:induction false} TerminalIsDated(ops: seq<Op>, ttl: int, interval: int)
    ensures Run(ops, ttl, interval).Some? ==> Dated(Run(ops, ttl, interval).value, ops)
    decreases |ops|
  {
    if ops != [] {
      var front, op := ops[..|ops| - 1], ops[|ops| - 1];
      TerminalIsDated(front, ttl, interval);
      var before := Run(front, ttl, interval);
      var s := if before.Some? then before.value else FRESH;
      assert ops == front + [op];
      match op
      case Handle(e) => DatedHandle(before, front, e);
      case Check(now) => DatedStays(s, CheckOne(before, interval, now).value, front, op);
      case Cleanup(_) => DatedStays(s, s, front, op);
      case Drop =>
    }
  }

  // --- Agreement with the durable status ---

  /** The lifecycle statuses in the order they arrive. */
  function Arrivals(ops: seq<Op>): seq<L.Status> {
    if ops == [] then []
    else
      var op := ops[|ops| - 1];
      Arrivals(ops[..|ops| - 1]) + if op.Handle? && Announced(op.event).Some? then [Announced(op.event).value] else []
  }

  lemma {:induction false} LastArrival(ops: seq<Op>)
    ensures LastAnnounced(ops) == if Arrivals(ops) == [] then None else Some(Arrivals(ops)[|Arrivals(ops)| - 1])
  {
    if ops != [] {
      LastArrival(ops[..|ops| - 1]);
    }
  }

  function Statuses(ns: seq<R.Notice>): (r: seq<L.Status>)
    ensures |r| == |ns| && forall i :: 0 <= i < |ns| ==> r[i] == ns[i].status
  {
    seq(|ns|, i requires 0 <= i < |ns| => ns[i].status)
  }

  /** Everything emitted in a wired run has arrived in order, and the snapshot was kept since operation n,
      a lifecycle.started. */
  ghost predicate CaughtUp(steps: seq<R.Step>, ops: seq<Op>, n: nat, ttl: int, interval: int)
    requires R.IsRun(R.Init(true), steps)
  {
    var s := R.After(R.Init(true), steps);
    && s.held == [] && Arrivals(ops) == Statuses(s.emitted)
    && n < |ops| && ops[n].Handle? && Announced(ops[n].event) == Some(L.Running) && Kept(ops, n + 1, ttl, interval)
  }

  /** In every wired run, whatever the order of emission: once everything has arrived, the snapshot shows
      what the notice emitted last announces. */
  lemma SnapshotShowsLastEmitted(steps: seq<R.Step>, ops: seq<Op>, n: nat, ttl: int, interval: int)
    requires R.IsRun(R.Init(true), steps) && CaughtUp(steps, ops, n, ttl, interval)
    ensures var s := R.After(R.Init(true), steps);
            && s.emitted != [] && Run(ops, ttl, interval).Some?
            && Run(ops, ttl, interval).value.status == Some(s.emitted[|s.emitted| - 1].status)
  {
    LastArrival(ops);
    StatusSinceStart(ops, n, ttl, interval);
  }

  /** So the two agree, when the durable status is running or terminal, if and only if the notice emitted
      last announces what the last transition did. */
  lemma SnapshotAgreesIff(steps: seq<R.Step>, ops: seq<Op>, n: nat, ttl: int, interval: int)
    requires R.IsRun(R.Init(true), steps) && CaughtUp(steps, ops, n, ttl, interval)
    requires var row := R.After(R.Init(true), steps).row;
             row.Some? && (row.value.status.Running? || L.Terminal(row.value.status))
    ensures var s := R.After(R.Init(true), steps);
            && s.emitted != [] && s.moves != [] && Run(ops, ttl, interval).Some?
            && (Run(ops, ttl, interval).value.status == Some(s.row.value.status) <==>
                s.emitted[|s.emitted| - 1].status == s.moves[|s.moves| - 1].status)
  {
    R.MovesTrackRow(R.Init(true), steps);
    SnapshotShowsLastEmitted(steps, ops, n, ttl, interval);
  }

  /** In particular they agree in every wired run that emits in transition order. */
  lemma SnapshotAgrees(steps: seq<R.Step>, ops: seq<Op>, n: nat, ttl: int, interval: int)
    requires R.IsRun(R.Init(true), steps) && R.EmitsOldest(R.Init(true), steps)
    requires CaughtUp(steps, ops, n, ttl, interval)
    ensures var row := R.After(R.Init(true), steps).row;
            row.Some? && (row.value.status.Running? || L.Terminal(row.value.status)) ==>
              Run(ops, ttl, interval).Some? && Run(ops, ttl, interval).value.status == Some(row.value.status)
  {
    var s := R.After(R.Init(true), steps);
    R.PrefixIffOldest(true, steps);
    assert s.emitted == s.moves;
    if s.row.Some? && (s.row.value.status.Running? || L.Terminal(s.row.value.status)) {
      SnapshotAgreesIff(steps, ops, n, ttl, interval);
    }
  }

  function LifecycleEvent(action: string): Event {
    Event("", 1, "agentlifecycle", "agent_activity", "", action, "", "info", "t", 0, "", "", map[])
  }

  /** The reordered run of the writer ends with a completed row and a running snapshot. */
  lemma SnapshotDisagrees(ttl: int, interval: int)
    ensures var ops := [Handle(LifecycleEvent("lifecycle.completed")), Handle(LifecycleEvent("lifecycle.started"))];
            && R.IsRun(R.Init(true), R.REORDERED)
            && CaughtUp(R.REORDERED, ops, 1, ttl, interval)
            && R.After(R.Init(true), R.REORDERED).row.Some?
            && R.After(R.Init(true), R.REORDERED).row.value.status.Completed?
            && Run(ops, ttl, interval).Some? && Run(ops, ttl, interval).value.status == Some(L.Running)
  {
    var done, start := LifecycleEvent("lifecycle.completed"), LifecycleEvent("lifecycle.started");
    var ops := [Handle(done), Handle(start)];
    R.EmissionCanReorder();
    AnnouncedLiterals();
    var before := [Handle(done)];
    assert ops[..1] == before && before[..0] == [] && ops[..2] == ops;
    assert Run([], ttl, interval) == None && Run(before, ttl, interval) == None;
    assert Run(ops, ttl, interval) == Some(Project(FRESH, start));
    ProjectedStatus(FRESH, start);
    assert Arrivals([]) == [] && Arrivals(before) == [] + [L.Completed];
    assert Arrivals(ops) == Arrivals(before) + [L.Running];
  }

  lemma AnnouncedLiterals()
    ensures Announced(LifecycleEvent("lifecycle.completed")) == Some(L.Completed)
    ensures Announced(LifecycleEvent("lifecycle.started")) == Some(L.Running)
  {
    assert "lifecycle.completed" != "lifecycle.started" by {
      assert |"lifecycle.completed"| != |"lifecycle.started"|;
    }
  }

  /** Right after a lifecycle event the snapshot, if there is one, has the announced status. */
  lemma StatusAtOnce(ops: seq<Op>, e: Event, ttl: int, interval: int)
    requires Announced(e).Some?
    ensures var r := Run(ops + [Handle(e)], ttl, interval); r.Some? ==> r.value.status == Announced(e)
    ensures LastAnnounced(ops + [Handle(e)]) == Announced(e)
  {
    assert (ops + [Handle(e)])[..|ops|] == ops;
    var before := Run(ops, ttl, interval);
    ProjectedStatus(if before.Some? then before.value else FRESH, e);
  }

  lemma StatusSinceStart(ops: seq<Op>, n: nat, ttl: int, interval: int)
    requires n < |ops| && ops[n].Handle? && Announced(ops[n].event).Some? && Kept(ops, n + 1, ttl, interval)
    ensures Run(ops, ttl, interval).Some? && Run(ops, ttl, interval).value.status == LastAnnounced(ops)
    ensures LastAnnounced(ops).Some?
  {
    var e := ops[n].event;
    assert ops[..n + 1] == ops[..n] + [Handle(e)] && ops == ops[..n + 1] + ops[n + 1..];
    StatusAtOnce(ops[..n], e, ttl, interval);
    StatusFollows(ops, n + 1, ttl, interval);
    LastOfConcat(ops[..n + 1], ops[n + 1..]);
  }
}
