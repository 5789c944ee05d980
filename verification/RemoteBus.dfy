/** The batching event bus of remote workers: emit, flush with requeue and trimming, close
    (internal/events/remotebus.go). */
module RemoteBus {
  import opened EventTypes

  const DEFAULT_BATCH_SIZE := 10

  /** What a failed batch leaves pending: the batch before what arrived since, cut to the newest 2*max. */
  function Requeue(batch: seq<Event>, pending: seq<Event>, max: nat): (r: seq<Event>)
    ensures |r| <= 2 * max
  {
    var combined := batch + pending;
    if |combined| > 2 * max then combined[|combined| - 2 * max..] else combined
  }

  /** The events the requeue cuts off: the oldest ones. */
  function Trimmed(batch: seq<Event>, pending: seq<Event>, max: nat): (t: seq<Event>)
    ensures t + Requeue(batch, pending, max) == batch + pending
  {
    var combined := batch + pending;
    if |combined| > 2 * max then combined[..|combined| - 2 * max] else []
  }

  /** What is left of everything unsent: all of it, or exactly its newest 2 * max events. */
  ghost predicate Requeued(all: seq<Event>, max: nat, pending: seq<Event>) {
    if |all| <= 2 * max then pending == all
    else |pending| == 2 * max && forall i :: 0 <= i < 2 * max ==> pending[i] == all[|all| - 2 * max + i]
  }

  /** The critical sections of the bus; a flush is TakeBatch, a post without the lock, and on failure
      FlushFailed. */
  class RemoteBus {
    var pending: seq<Event>
    var stopped: bool
    const maxBatchSize: nat

    constructor (max: int)
      ensures pending == [] && !stopped && maxBatchSize == if max <= 0 then 10 else max
    {
      maxBatchSize := if max <= 0 then DEFAULT_BATCH_SIZE else max;
      pending, stopped := [], false;
    }

    method Emit(e: Event) returns (shouldFlush: bool)
      modifies this
      ensures stopped == old(stopped)
      ensures pending == if old(stopped) then old(pending) else old(pending) + [e]
      ensures shouldFlush == (!old(stopped) && |old(pending)| + 1 >= maxBatchSize)
    {
      if stopped {
        return false;
      }
      pending := pending + [e];
      shouldFlush := |pending| >= maxBatchSize;
    }

    method TakeBatch() returns (batch: seq<Event>)
      modifies this
      ensures batch == old(pending) && pending == [] && stopped == old(stopped)
    {
      batch := pending;
      pending := [];
    }

    method FlushFailed(batch: seq<Event>)
      modifies this
      ensures stopped == old(stopped)
      ensures pending == if old(stopped) then old(pending) else Requeue(batch, old(pending), maxBatchSize)
      ensures old(stopped) ==> pending == old(pending)
      ensures !old(stopped) ==> Requeued(batch + old(pending), maxBatchSize, pending)
    {
      if !stopped {
        var combined := batch + pending;
        if |combined| > maxBatchSize * 2 {
          combined := combined[|combined| - maxBatchSize * 2..];
        }
        pending := combined;
      }
    }

    method Stop() returns (first: bool)
      modifies this
      ensures stopped && pending == old(pending) && first == !old(stopped)
    {
      first := !stopped;
      stopped := true;
    }
  }

  /** A bus with any number of flushes in flight. `accepted`, `delivered`, `trimmed` and `lost` record
      where every event went; in-flight batches are numbered. */
  datatype State = State(
    max: nat, pending: seq<Event>, stopped: bool, inFlight: map<nat, seq<Event>>, nextFlush: nat,
    accepted: seq<Event>, delivered: seq<Event>, trimmed: seq<Event>, lost: seq<Event>)

  datatype Step = Emit(e: Event) | Take | Posted(id: nat) | Failed(id: nat) | Close

  function Init(max: nat): State {
    State(max, [], false, map[], 0, [], [], [], [])
  }

  /** An empty bus takes no batch. */
  predicate Enabled(s: State, step: Step) {
    match step
    case Emit(_) => true
    case Take => s.pending != []
    case Posted(id) => id in s.inFlight
    case Failed(id) => id in s.inFlight
    case Close => true
  }

  function Apply(s: State, step: Step): State
    requires Enabled(s, step)
  {
    match step
    case Emit(e) => if s.stopped then s else s.(pending := s.pending + [e], accepted := s.accepted + [e])
    case Take => s.(pending := [], inFlight := s.inFlight[s.nextFlush := s.pending], nextFlush := s.nextFlush + 1)
    case Posted(id) => s.(inFlight := s.inFlight - {id}, delivered := s.delivered + s.inFlight[id])
    case Failed(id) =>
      var batch := s.inFlight[id];
      if s.stopped then s.(inFlight := s.inFlight - {id}, lost := s.lost + batch)
      else s.(inFlight := s.inFlight - {id}, pending := Requeue(batch, s.pending, s.max),
              trimmed := s.trimmed + Trimmed(batch, s.pending, s.max))
    case Close => s.(stopped := true)
  }

  // --- Conservation ---

  /** All events of the in-flight batches numbered below n. */
  function Flying(m: map<nat, seq<Event>>, n: nat): multiset<Event> {
    if n == 0 then multiset{}
    else Flying(m, n - 1) + if n - 1 in m then multiset(m[n - 1]) else multiset{}
  }

  lemma {:induction false} FlyingAdd(m: map<nat, seq<Event>>, n: nat, id: nat, batch: seq<Event>)
    requires id !in m
    ensures Flying(m[id := batch], n) == Flying(m, n) + if id < n then multiset(batch) else multiset{}
  {
    if n > 0 {
      FlyingAdd(m, n - 1, id, batch);
    }
  }

  lemma FlyingRemove(m: map<nat, seq<Event>>, n: nat, id: nat)
    requires id in m && id < n
    ensures Flying(m, n) == Flying(m - {id}, n) + multiset(m[id])
  {
    var m' := m - {id};
    assert m == m'[id := m[id]];
    FlyingAdd(m', n, id, m[id]);
  }

  /** Every accepted event is in exactly one place. */
  ghost predicate Conserved(s: State) {
    && (forall id :: id in s.inFlight ==> id < s.nextFlush)
    && multiset(s.accepted) ==
       multiset(s.delivered) + Flying(s.inFlight, s.nextFlush) + multiset(s.pending) + multiset(s.trimmed)
       + multiset(s.lost)
    && (s.lost != [] ==> s.stopped)
  }

  lemma TakeConserves(s: State)
    requires Conserved(s) && Enabled(s, Take)
    ensures Conserved(Apply(s, Take))
  {
    var f, s' := Flying(s.inFlight, s.nextFlush), Apply(s, Take);
    FlyingAdd(s.inFlight, s.nextFlush + 1, s.nextFlush, s.pending);
    assert Flying(s.inFlight, s.nextFlush + 1) == f;
    assert Flying(s'.inFlight, s'.nextFlush) == f + multiset(s.pending) && multiset(s'.pending) == multiset{};
    TakenSum(multiset(s.delivered), f, multiset(s.pending), multiset(s.trimmed), multiset(s.lost));
  }

  lemma TakenSum(d: multiset<Event>, f: multiset<Event>, p: multiset<Event>, t: multiset<Event>, l: multiset<Event>)
    ensures d + f + p + t + l == d + (f + p) + multiset{} + t + l
  {
  }

  lemma PostedConserves(s: State, id: nat)
    requires Conserved(s) && Enabled(s, Posted(id))
    ensures Conserved(Apply(s, Posted(id)))
  {
    FlyingRemove(s.inFlight, s.nextFlush, id);
  }

  lemma Rearrange(d: multiset<Event>, f: multiset<Event>, p: multiset<Event>, t: multiset<Event>, l: multiset<Event>,
                  b: multiset<Event>, cut: multiset<Event>, rest: multiset<Event>)
    requires b + p == cut + rest
    ensures d + (f + b) + p + t + l == d + f + rest + (t + cut) + l
  {
    assert d + (f + b) + p + t + l == d + f + (b + p) + t + l;
    assert d + f + (cut + rest) + t + l == d + f + rest + (t + cut) + l;
  }

  lemma FailedConserves(s: State, id: nat)
    requires Conserved(s) && Enabled(s, Failed(id))
    ensures Conserved(Apply(s, Failed(id)))
  {
    FlyingRemove(s.inFlight, s.nextFlush, id);
    if !s.stopped {
      var batch := s.inFlight[id];
      var t, r := Trimmed(batch, s.pending, s.max), Requeue(batch, s.pending, s.max);
      assert multiset(s.trimmed + t) == multiset(s.trimmed) + multiset(t);
      assert multiset(t) + multiset(r) == multiset(t + r) == multiset(batch + s.pending) ==
             multiset(batch) + multiset(s.pending);
      Rearrange(multiset(s.delivered), Flying(s.inFlight - {id}, s.nextFlush), multiset(s.pending), multiset(s.trimmed),
                multiset(s.lost), multiset(batch), multiset(t), multiset(r));
    }
  }

  lemma StepConserves(s: State, step: Step)
    requires Conserved(s) && Enabled(s, step)
    ensures Conserved(Apply(s, step))
  {
    match step
    case Emit(e) =>
    case Take => TakeConserves(s);
    case Posted(id) => PostedConserves(s, id);
    case Failed(id) => FailedConserves(s, id);
    case Close =>
  }

  ghost predicate IsRun(trace: seq<State>, steps: seq<Step>) {
    && |trace| == |steps| + 1
    && trace[0] == Init(trace[0].max)
    && forall i :: 0 <= i < |steps| ==> Enabled(trace[i], steps[i]) && trace[i + 1] == Apply(trace[i], steps[i])
  }

  /** In every run, with any number of flushes in flight: each accepted event is delivered, in flight,
      pending, trimmed, or lost to a flush that failed after Close, and counted once. */
  lemma {:induction false} EventsConserved(trace: seq<State>, steps: seq<Step>, n: nat)
    requires IsRun(trace, steps) && n < |trace|
    ensures Conserved(trace[n])
  {
    if n > 0 {
      EventsConserved(trace, steps, n - 1);
      StepConserves(trace[n - 1], steps[n - 1]);
    }
  }

  // --- Nothing is trimmed without need ---

  /** A failed flush of an open bus: the batch and what is pending stay, all of it while there is room, and
      only the oldest events beyond the newest 2 * max are trimmed. */
  lemma FailedFlushKeeps(s: State, id: nat)
    requires Enabled(s, Failed(id)) && !s.stopped
    ensures var s', all := Apply(s, Failed(id)), s.inFlight[id] + s.pending;
            && Requeued(all, s.max, s'.pending)
            && (|all| <= 2 * s.max ==> s'.trimmed == s.trimmed)
            && (|all| > 2 * s.max ==> s'.trimmed == s.trimmed + all[..|all| - 2 * s.max])
            && s'.delivered == s.delivered && s'.lost == s.lost
  {
  }

  lemma TrimStep(s: State, step: Step)
    requires Enabled(s, step)
    ensures var s' := Apply(s, step);
            && s.trimmed <= s'.trimmed
            && (s'.trimmed != s.trimmed ==> step.Failed? && !s.stopped && |s'.pending| == 2 * s.max)
            && (step.Failed? && !s.stopped ==> |s'.pending| <= 2 * s.max)
  {
  }

  /** In every run events are trimmed only by a failed flush of an open bus, and only down to a full
      buffer. */
  lemma TrimmedOnlyWhenFull(trace: seq<State>, steps: seq<Step>, i: nat)
    requires IsRun(trace, steps) && i < |steps|
    ensures trace[i].trimmed <= trace[i + 1].trimmed
    ensures trace[i + 1].trimmed != trace[i].trimmed ==>
              steps[i].Failed? && !trace[i].stopped && |trace[i + 1].pending| == 2 * trace[i].max
  {
    TrimStep(trace[i], steps[i]);
  }

  // --- Order, with one flush in flight at a time ---

  /** `a` can be obtained from `b` by deleting elements. */
  ghost predicate Subsequence(a: seq<Event>, b: seq<Event>) {
    a == [] || (b != [] && if a[|a| - 1] == b[|b| - 1] then Subsequence(a[..|a| - 1], b[..|b| - 1])
                else Subsequence(a, b[..|b| - 1]))
  }

  lemma {:induction false} SubsequenceShrinks(a: seq<Event>, b: seq<Event>)
    requires a != [] && Subsequence(a, b)
    ensures Subsequence(a[..|a| - 1], b)
    decreases |b|
  {
    var a0, b0, last := a[..|a| - 1], b[..|b| - 1], b[|b| - 1];
    if a[|a| - 1] != last {
      SubsequenceShrinks(a, b0);
    }
    if a0 != [] && a0[|a0| - 1] == last {
      SubsequenceShrinks(a0, b0);
    }
  }

  lemma SubsequenceAppend(a: seq<Event>, b: seq<Event>, e: Event)
    requires Subsequence(a, b)
    ensures Subsequence(a + [e], b + [e])
  {
    assert (a + [e])[..|a|] == a && (b + [e])[..|b|] == b;
  }

  lemma {:induction false} PrefixOfSubsequence(a: seq<Event>, b: seq<Event>, s: seq<Event>)
    requires Subsequence(a + b, s)
    ensures Subsequence(a, s)
    decreases |b|
  {
    if b == [] {
      assert a + b == a;
    } else {
      assert (a + b)[..|a + b| - 1] == a + b[..|b| - 1];
      SubsequenceShrinks(a + b, s);
      PrefixOfSubsequence(a, b[..|b| - 1], s);
    }
  }

  /** Cutting a stretch out of a subsequence leaves a subsequence. */
  lemma {:induction false} CutMiddle(a: seq<Event>, b: seq<Event>, c: seq<Event>, s: seq<Event>)
    requires Subsequence(a + b + c, s)
    ensures Subsequence(a + c, s)
    decreases |s|
  {
    if c == [] {
      assert a + b + c == a + b && a + c == a;
      PrefixOfSubsequence(a, b, s);
    } else {
      var c0, s0, last := c[..|c| - 1], s[..|s| - 1], c[|c| - 1];
      assert (a + b + c)[..|a + b + c| - 1] == a + b + c0;
      assert (a + c)[..|a + c| - 1] == a + c0;
      if last == s[|s| - 1] {
        CutMiddle(a, b, c0, s0);
      } else {
        CutMiddle(a, b, c, s0);
      }
    }
  }

  /** At most one flush is between TakeBatch and the end of its post. */
  ghost predicate OneFlush(s: State) {
    forall i, j :: i in s.inFlight && j in s.inFlight ==> i == j
  }

  /** The batch in flight, if any. */
  ghost function Batch(s: State): seq<Event>
    requires OneFlush(s)
  {
    if s.inFlight == map[] then [] else var id :| id in s.inFlight; s.inFlight[id]
  }

  lemma BatchIs(s: State, id: nat)
    requires OneFlush(s) && id in s.inFlight
    ensures Batch(s) == s.inFlight[id] && s.inFlight - {id} == map[]
  {
    assert s.inFlight != map[];
  }

  /** Delivered, then in flight, then pending. */
  ghost function Line(s: State): seq<Event>
    requires OneFlush(s)
  {
    s.delivered + Batch(s) + s.pending
  }

  ghost predicate Ordered(s: State) {
    OneFlush(s) && Subsequence(Line(s), s.accepted)
  }

  lemma TakeOrdered(s: State)
    requires Ordered(s) && Enabled(s, Take) && s.inFlight == map[]
    ensures Ordered(Apply(s, Take))
  {
    var s' := Apply(s, Take);
    BatchIs(s', s.nextFlush);
    assert Line(s') == Line(s);
  }

  lemma PostedOrdered(s: State, id: nat)
    requires Ordered(s) && Enabled(s, Posted(id))
    ensures Ordered(Apply(s, Posted(id)))
  {
    BatchIs(s, id);
    assert Line(Apply(s, Posted(id))) == Line(s);
  }

  lemma LostOrdered(s: State, id: nat)
    requires Ordered(s) && Enabled(s, Failed(id)) && s.stopped
    ensures Ordered(Apply(s, Failed(id)))
  {
    BatchIs(s, id);
    CutMiddle(s.delivered, s.inFlight[id], s.pending, s.accepted);
    assert Line(Apply(s, Failed(id))) == s.delivered + s.pending;
  }

  lemma RequeuedOrdered(s: State, id: nat)
    requires Ordered(s) && Enabled(s, Failed(id)) && !s.stopped
    ensures Ordered(Apply(s, Failed(id)))
  {
    BatchIs(s, id);
    var batch := s.inFlight[id];
    var t, r := Trimmed(batch, s.pending, s.max), Requeue(batch, s.pending, s.max);
    assert Line(s) == s.delivered + (batch + s.pending);
    assert Line(s) == s.delivered + t + r;
    CutMiddle(s.delivered, t, r, s.accepted);
    assert Line(Apply(s, Failed(id))) == s.delivered + r;
  }

  lemma StepOrdered(s: State, step: Step)
    requires Ordered(s) && Enabled(s, step) && (step.Take? ==> s.inFlight == map[])
    ensures Ordered(Apply(s, step))
  {
    match step
    case Emit(e) =>
      if !s.stopped {
        SubsequenceAppend(Line(s), s.accepted, e);
        assert Line(Apply(s, step)) == Line(s) + [e];
      }
    case Take => TakeOrdered(s);
    case Posted(id) => PostedOrdered(s, id);
    case Failed(id) => if s.stopped { LostOrdered(s, id); } else { RequeuedOrdered(s, id); }
    case Close =>
      assert Line(Apply(s, step)) == Line(s);
  }

  /** With one flush in flight at a time, what is delivered, in flight and pending is at every moment
      an in-order subsequence of the accepted events: failures and trimming never reorder. */
  lemma {:induction false} OrderKept(trace: seq<State>, steps: seq<Step>, n: nat)
    requires IsRun(trace, steps) && n < |trace|
    requires forall i :: 0 <= i < |steps| && steps[i].Take? ==> trace[i].inFlight == map[]
    ensures Ordered(trace[n])
  {
    if n > 0 {
      OrderKept(trace, steps, n - 1);
      StepOrdered(trace[n - 1], steps[n - 1]);
    }
  }

  /** Two flushes of one event each, overlapping, the second post finishing first. */
  function OverlapSteps(a: Event, b: Event): seq<Step> {
    [Emit(a), Take, Emit(b), Take, Posted(1), Posted(0)]
  }

  function OverlapTrace(a: Event, b: Event): seq<State> {
    [ Init(1),
      State(1, [a], false, map[], 0, [a], [], [], []),
      State(1, [], false, map[0 := [a]], 1, [a], [], [], []),
      State(1, [b], false, map[0 := [a]], 1, [a, b], [], [], []),
      State(1, [], false, map[0 := [a], 1 := [b]], 2, [a, b], [], [], []),
      State(1, [], false, map[0 := [a]], 2, [a, b], [b], [], []),
      State(1, [], false, map[], 2, [a, b], [b, a], [], []) ]
  }

  /** Overlapping flushes can deliver out of order, so the guard of OrderKept is needed. */
  lemma OverlapReorders(a: Event, b: Event)
    requires a != b
    ensures IsRun(OverlapTrace(a, b), OverlapSteps(a, b))
    ensures !Subsequence(OverlapTrace(a, b)[6].delivered, OverlapTrace(a, b)[6].accepted)
  {
    var t := OverlapTrace(a, b);
    assert t[1] == Apply(t[0], Emit(a));
    assert t[2] == Apply(t[1], Take);
    assert t[3] == Apply(t[2], Emit(b));
    assert t[4] == Apply(t[3], Take);
    assert t[5] == Apply(t[4], Posted(1)) by { assert map[0 := [a], 1 := [b]] - {1} == map[0 := [a]]; }
    assert t[6] == Apply(t[5], Posted(0)) by { assert map[0 := [a]] - {0} == map[]; }
    assert [b, a][..1] == [b] && [a, b][..1] == [a] && [a][..0] == [];
    assert !Subsequence([b], []);
    assert !Subsequence([b, a], [a]);
  }

  // --- Order survives every schedule exactly when flushes never overlap ---

  /** Distinct flushes that are in flight. */
  predicate Postable(s: State, ids: seq<nat>) {
    && (forall i :: 0 <= i < |ids| ==> ids[i] in s.inFlight)
    && (forall i, j :: 0 <= i < j < |ids| ==> ids[i] != ids[j])
  }

  /** The state after posting the flushes in the given order. */
  function PostAll(s: State, ids: seq<nat>): State
    requires Postable(s, ids)
    decreases |ids|
  {
    if ids == [] then s
    else
      var s' := Apply(s, Posted(ids[0]));
      assert forall i :: 0 <= i < |ids[1..]| ==> ids[1..][i] == ids[i + 1];
      PostAll(s', ids[1..])
  }

  /** In whatever order posts in flight succeed, what is delivered is in order. */
  ghost predicate PostsKeepOrder(s: State) {
    forall ids :: Postable(s, ids) ==> Subsequence(PostAll(s, ids).delivered, s.accepted)
  }

  /** Elements of a subsequence occur in its order. */
  lemma {:induction false} OrderOfElements(a: seq<Event>, b: seq<Event>, i: nat, j: nat) returns (p: nat, q: nat)
    requires Subsequence(a, b) && i < j < |a|
    ensures p < q < |b| && b[p] == a[i] && b[q] == a[j]
    decreases |b|
  {
    var b0 := b[..|b| - 1];
    if a[|a| - 1] != b[|b| - 1] {
      p, q := OrderOfElements(a, b0, i, j);
    } else if j < |a| - 1 {
      p, q := OrderOfElements(a[..|a| - 1], b0, i, j);
    } else {
      p := ElementOf(a[..|a| - 1], b0, i);
      q := |b| - 1;
    }
  }

  lemma {:induction false} ElementOf(a: seq<Event>, b: seq<Event>, i: nat) returns (p: nat)
    requires Subsequence(a, b) && i < |a|
    ensures p < |b| && b[p] == a[i]
    decreases |b|
  {
    var b0 := b[..|b| - 1];
    if a[|a| - 1] != b[|b| - 1] {
      p := ElementOf(a, b0, i);
    } else if i < |a| - 1 {
      p := ElementOf(a[..|a| - 1], b0, i);
    } else {
      p := |b| - 1;
    }
  }

  /** Two batches cannot be in order both ways round. */
  lemma NotBothOrders(d: seq<Event>, x: seq<Event>, y: seq<Event>, s: seq<Event>)
    requires UniqueIds(s) && x != [] && y != [] && Subsequence(d + x + y, s)
    ensures !Subsequence(d + y + x, s)
  {
    var xy, yx := d + x + y, d + y + x;
    var p, q := OrderOfElements(xy, s, |d|, |d| + |x|);
    assert s[p] == x[0] && s[q] == y[0];
    if Subsequence(yx, s) {
      var q', p' := OrderOfElements(yx, s, |d|, |d| + |y|);
    }
  }

  lemma PostTwo(s: State, i: nat, j: nat)
    requires i in s.inFlight && j in s.inFlight && i != j
    ensures Postable(s, [i, j]) && PostAll(s, [i, j]).delivered == s.delivered + s.inFlight[i] + s.inFlight[j]
  {
    var s1 := Apply(s, Posted(i));
    assert [i, j][1..] == [j] && [j][1..] == [];
    assert PostAll(s1, [j]) == PostAll(Apply(s1, Posted(j)), []);
  }

  /** If two non-empty flushes overlap, one of the two orders in which they can finish is wrong. */
  lemma OverlapBreaksOrder(s: State)
    requires UniqueIds(s.accepted) && !OneFlush(s) && forall id :: id in s.inFlight ==> s.inFlight[id] != []
    ensures !PostsKeepOrder(s)
  {
    var i, j :| i in s.inFlight && j in s.inFlight && i != j;
    PostTwo(s, i, j);
    PostTwo(s, j, i);
    if Subsequence(PostAll(s, [i, j]).delivered, s.accepted) {
      NotBothOrders(s.delivered, s.inFlight[i], s.inFlight[j], s.accepted);
    }
  }

  lemma TwoOverlap(s: State, ids: seq<nat>)
    requires Postable(s, ids) && |ids| > 1
    ensures !OneFlush(s)
  {
    assert ids[0] in s.inFlight && ids[1] in s.inFlight && ids[0] != ids[1];
  }

  lemma OneFlushKeepsOrder(s: State)
    requires Ordered(s)
    ensures PostsKeepOrder(s)
  {
    forall ids | Postable(s, ids) ensures Subsequence(PostAll(s, ids).delivered, s.accepted) {
      if ids == [] {
        assert Line(s) == s.delivered + (Batch(s) + s.pending);
        PrefixOfSubsequence(s.delivered, Batch(s) + s.pending, s.accepted);
      } else {
        if |ids| > 1 {
          TwoOverlap(s, ids);
        }
        BatchIs(s, ids[0]);
        PrefixOfSubsequence(s.delivered + Batch(s), s.pending, s.accepted);
        assert ids[1..] == [];
      }
    }
  }

  /** No batch in flight is empty, and flush numbers are fresh. */
  lemma {:induction false} FlightsNonEmpty(trace: seq<State>, steps: seq<Step>, n: nat)
    requires IsRun(trace, steps) && n < |trace|
    ensures forall id :: id in trace[n].inFlight ==> trace[n].inFlight[id] != []
  {
    if n > 0 {
      FlightsNonEmpty(trace, steps, n - 1);
      assert trace[n] == Apply(trace[n - 1], steps[n - 1]);
    }
  }

  lemma {:induction false} AcceptedGrows(trace: seq<State>, steps: seq<Step>, n: nat, m: nat)
    requires IsRun(trace, steps) && n <= m < |trace|
    ensures trace[n].accepted <= trace[m].accepted
    decreases m
  {
    if n < m {
      AcceptedGrows(trace, steps, n, m - 1);
      assert trace[m] == Apply(trace[m - 1], steps[m - 1]);
    }
  }

  lemma TakeOnEmpty(trace: seq<State>, steps: seq<Step>, i: nat)
    requires IsRun(trace, steps) && i < |steps| && steps[i].Take? && OneFlush(trace[i + 1])
    ensures trace[i].inFlight == map[]
  {
    EventsConserved(trace, steps, i);
    var s, s' := trace[i], trace[i + 1];
    assert s' == Apply(s, steps[i]);
    assert forall id :: id in s.inFlight ==> id in s'.inFlight && id != s.nextFlush;
    assert s.nextFlush in s'.inFlight;
  }

  /** For every run over distinct events: flushes never overlap if and only if at every moment, however
      the posts then in flight turn out to finish, delivery is in order. */
  lemma OrderIffOneFlush(trace: seq<State>, steps: seq<Step>)
    requires IsRun(trace, steps) && UniqueIds(trace[|steps|].accepted)
    ensures (forall n :: 0 <= n < |trace| ==> OneFlush(trace[n])) <==>
            (forall n :: 0 <= n < |trace| ==> PostsKeepOrder(trace[n]))
  {
    if forall n :: 0 <= n < |trace| ==> OneFlush(trace[n]) {
      forall i | 0 <= i < |steps| && steps[i].Take? ensures trace[i].inFlight == map[] {
        TakeOnEmpty(trace, steps, i);
      }
      forall n | 0 <= n < |trace| ensures PostsKeepOrder(trace[n]) {
        OrderKept(trace, steps, n);
        OneFlushKeepsOrder(trace[n]);
      }
    } else {
      var n :| 0 <= n < |trace| && !OneFlush(trace[n]);
      FlightsNonEmpty(trace, steps, n);
      AcceptedGrows(trace, steps, n, |steps|);
      PrefixUnique(trace[n].accepted, trace[|steps|].accepted);
      OverlapBreaksOrder(trace[n]);
    }
  }

  lemma PrefixUnique(a: seq<Event>, b: seq<Event>)
    requires UniqueIds(b) && a <= b
    ensures UniqueIds(a)
  {
    assert forall i :: 0 <= i < |a| ==> a[i] == b[i];
  }
}
