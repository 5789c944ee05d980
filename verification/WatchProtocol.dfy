/** One serialized emitter and one watcher of a task, interleaved step by step. */
module WatchProtocol {
  import opened EventTypes
  import opened Ring
  import opened Watch

  datatype Phase = Detached | Subscribed | CatchingUp(todo: seq<Event>) | Live

  /** `history` is everything appended to the ring, `announced` how much of it has been broadcast.
      The last seven fields record what happened: broadcasts finished at Subscribe (`joined`), history
      length and first caught-up position at the ring read (`read`, `from`), whether the ring had
      evicted the cursor (`miss`), the positions the channel accepted (`queued`), how many of those the
      watcher has received (`taken`), and the positions dropped on a full channel (`dropped`). */
  datatype State = State(
    history: seq<Event>, announced: nat, ringCap: nat, chanCap: nat,
    phase: Phase, queue: seq<Event>, session: Session,
    joined: nat, read: nat, from: nat, miss: bool, queued: seq<nat>, taken: nat, dropped: seq<nat>)

  datatype Step =
    | Append(e: Event)
    | Broadcast
    | Subscribe
    | ReadRing(fallback: seq<Event>)
    | WriteCatchUp
    | Take

  function Init(ringCap: nat, chanCap: nat): State {
    State([], 0, ringCap, chanCap, Detached, [], Session({}, []), 0, 0, 0, false, [], 0, [])
  }

  /** The emitter appends only after the previous broadcast returned, with a fresh id. */
  predicate Enabled(s: State, step: Step) {
    match step
    case Append(e) => s.announced == |s.history| && forall i :: 0 <= i < |s.history| ==> s.history[i].id != e.id
    case Broadcast => s.announced < |s.history|
    case Subscribe => s.phase.Detached?
    case ReadRing(_) => s.phase.Subscribed?
    case WriteCatchUp => s.phase.CatchingUp?
    case Take => s.phase.Live? && s.queue != []
  }

  /** Without a cursor there is no catch-up; a cursor the ring has evicted falls back to `fallback`. */
  function Apply(s: State, since: string, step: Step): State
    requires Enabled(s, step)
  {
    match step
    case Append(e) => s.(history := s.history + [e])
    case Broadcast =>
      var e := s.history[s.announced];
      if s.phase.Detached? then s.(announced := s.announced + 1)
      else s.(announced := s.announced + 1,
              queue := Offer(s.queue, s.chanCap, e),
              queued := if |s.queue| < s.chanCap then s.queued + [s.announced] else s.queued,
              dropped := if |s.queue| == s.chanCap then s.dropped + [s.announced] else s.dropped)
    case Subscribe => s.(phase := Subscribed, queue := [], joined := s.announced, queued := [], taken := 0,
                         dropped := [])
    case ReadRing(fallback) =>
      if since == "" then s.(phase := CatchingUp([]), read := |s.history|, from := |s.history|)
      else (match SinceIn(LastN(s.history, s.ringCap), since)
            case Some(events) =>
              s.(phase := CatchingUp(events), read := |s.history|,
                 from := if |events| <= |s.history| then |s.history| - |events| else 0)
            case None => s.(phase := CatchingUp(fallback), read := |s.history|, from := 0, miss := true))
    case WriteCatchUp =>
      if s.phase.todo == [] then s.(phase := Live)
      else s.(phase := CatchingUp(s.phase.todo[1..]), session := WriteCaughtUp(s.session, s.phase.todo[0]))
    case Take =>
      s.(queue := s.queue[1..], session := Receive(s.session, s.queue[0]), taken := s.taken + 1)
  }

  predicate InRange(idx: seq<nat>, n: nat) {
    forall i :: 0 <= i < |idx| ==> idx[i] < n
  }

  predicate Increasing(idx: seq<nat>) {
    forall i, j :: 0 <= i < j < |idx| ==> idx[i] < idx[j]
  }

  /** The events at the given positions. */
  function At(h: seq<Event>, idx: seq<nat>): (r: seq<Event>)
    requires InRange(idx, |h|)
    ensures |r| == |idx| && forall i :: 0 <= i < |idx| ==> r[i] == h[idx[i]]
  {
    seq(|idx|, i requires 0 <= i < |idx| => h[idx[i]])
  }

  function Range(lo: nat, hi: nat): (r: seq<nat>)
    requires lo <= hi
    ensures |r| == hi - lo && forall k :: 0 <= k < |r| ==> r[k] == lo + k
  {
    seq(hi - lo, k => lo + k)
  }

  lemma AtRange(h: seq<Event>, lo: nat, hi: nat)
    requires lo <= hi <= |h|
    ensures InRange(Range(lo, hi), |h|) && At(h, Range(lo, hi)) == h[lo..hi]
  {
  }

  /** Length of the leading run of positions inside [lo, hi). */
  function WindowLen(r: seq<nat>, lo: nat, hi: nat): (k: nat)
    ensures k <= |r|
  {
    if r == [] || !(lo <= r[0] < hi) then 0 else 1 + WindowLen(r[1..], lo, hi)
  }

  lemma {:induction false} WindowLenIs(r: seq<nat>, lo: nat, hi: nat, k: nat)
    requires k <= |r| && forall i :: 0 <= i < k ==> lo <= r[i] < hi
    requires k < |r| ==> !(lo <= r[k] < hi)
    ensures WindowLen(r, lo, hi) == k
  {
    if k > 0 {
      assert lo <= r[0] < hi;
      WindowLenIs(r[1..], lo, hi, k - 1);
    }
  }

  lemma {:induction false} WindowLenMeans(r: seq<nat>, lo: nat, hi: nat)
    ensures forall i :: 0 <= i < WindowLen(r, lo, hi) ==> lo <= r[i] < hi
    ensures WindowLen(r, lo, hi) < |r| ==> !(lo <= r[WindowLen(r, lo, hi)] < hi)
  {
    if r != [] && lo <= r[0] < hi {
      WindowLenMeans(r[1..], lo, hi);
      forall i | 0 <= i < WindowLen(r, lo, hi) ensures lo <= r[i] < hi {
        assert i > 0 ==> r[i] == r[1..][i - 1];
      }
    }
  }

  lemma WindowLenAppend(r: seq<nat>, x: nat, lo: nat, hi: nat)
    ensures WindowLen(r + [x], lo, hi) ==
            if WindowLen(r, lo, hi) == |r| && lo <= x < hi then |r| + 1 else WindowLen(r, lo, hi)
  {
    WindowLenMeans(r, lo, hi);
    var k := WindowLen(r, lo, hi);
    WindowLenIs(r + [x], lo, hi, if k == |r| && lo <= x < hi then k + 1 else k);
  }

  /** Positions the watcher has received so far. */
  function Received(s: State): seq<nat>
    requires s.taken <= |s.queued|
  {
    s.queued[..s.taken]
  }

  /** The session of a watcher that caught up on [from, read) and then received the positions `r`:
      the caught-up stretch, then every received event from the first one outside the stretch. */
  function Delivered(h: seq<Event>, from: nat, read: nat, r: seq<nat>): Session
    requires from <= read <= |h| && InRange(r, |h|)
  {
    var k := WindowLen(r, from, read);
    Session(if k == |r| then Ids(h[from..read]) else {}, h[from..read] + At(h, r[k..]))
  }

  lemma DeliveredReceive(h: seq<Event>, from: nat, read: nat, r: seq<nat>, i: nat)
    requires from <= read <= |h| && InRange(r, |h|) && i < |h|
    requires h[i].id in Ids(h[from..read]) <==> from <= i < read
    ensures Receive(Delivered(h, from, read, r), h[i]) == Delivered(h, from, read, r + [i])
  {
    WindowLenAppend(r, i, from, read);
    var k := WindowLen(r, from, read);
    if k == |r| && from <= i < read {
      assert At(h, (r + [i])[k + 1..]) == At(h, r[k..]);
    } else {
      assert (r + [i])[k..] == r[k..] + [i];
      assert At(h, r[k..] + [i]) == At(h, r[k..]) + [h[i]];
    }
  }

  lemma DeliveredGrow(h: seq<Event>, e: Event, from: nat, read: nat, r: seq<nat>)
    requires from <= read <= |h| && InRange(r, |h|)
    ensures Delivered(h + [e], from, read, r) == Delivered(h, from, read, r)
  {
    assert (h + [e])[from..read] == h[from..read];
    var t := r[WindowLen(r, from, read)..];
    assert At(h + [e], t) == At(h, t);
  }

  /** A gap-free reception of [joined, m) that starts below the caught-up stretch: nothing is
      skipped, so the stretch is followed by everything received. */
  lemma DeliveredBelow(h: seq<Event>, from: nat, read: nat, joined: nat, m: nat)
    requires joined < from <= read <= |h| && joined <= m <= |h|
    ensures InRange(Range(joined, m), |h|)
    ensures Delivered(h, from, read, Range(joined, m)).out == h[from..read] + h[joined..m]
  {
    var r := Range(joined, m);
    WindowLenIs(r, from, read, 0);
    assert r[0..] == r;
    AtRange(h, joined, m);
  }

  /** A gap-free reception of [joined, m) that starts inside the caught-up stretch: exactly the part
      below `read` is skipped, so stretch and live tail join up. */
  lemma DeliveredInside(h: seq<Event>, from: nat, read: nat, joined: nat, m: nat)
    requires from <= joined <= read <= |h| && joined <= m <= |h|
    ensures InRange(Range(joined, m), |h|)
    ensures Delivered(h, from, read, Range(joined, m)).out == h[from..if m <= read then read else m]
  {
    var r := Range(joined, m);
    var k := if m <= read then m - joined else read - joined;
    WindowLenIs(r, from, read, k);
    if m <= read {
      assert At(h, r[k..]) == [];
    } else {
      assert r[k..] == Range(read, m);
      AtRange(h, read, m);
      assert h[from..read] + h[read..m] == h[from..m];
    }
  }

  ghost predicate HistoryInv(s: State) {
    s.announced <= |s.history| <= s.announced + 1 && UniqueIds(s.history)
  }

  /** The channel holds, in order, the accepted positions that were not received yet. */
  ghost predicate ChannelInv(s: State) {
    && s.joined <= s.announced <= |s.history|
    && s.taken <= |s.queued|
    && Increasing(s.queued)
    && InRange(s.queued, s.announced)
    && (forall i :: 0 <= i < |s.queued| ==> s.joined <= s.queued[i])
    && s.queue == At(s.history, s.queued[s.taken..])
  }

  /** The caught-up stretch starts right after the cursor. */
  ghost predicate WindowInv(s: State, since: string) {
    && s.from <= s.read <= |s.history|
    && s.joined <= s.read
    && (since != "" ==> s.from > 0 && s.history[s.from - 1].id == since)
    && (since == "" ==> s.from == s.read)
  }

  /** The exact output, with no assumption on drops or on where the cursor was at Subscribe. */
  ghost predicate SessionInv(s: State) {
    match s.phase
    case Detached => s.session == Session({}, []) && s.queued == [] && s.taken == 0
    case Subscribed => s.session == Session({}, []) && s.taken == 0
    case CatchingUp(todo) =>
      && s.taken == 0 && s.from <= s.read <= |s.history|
      && s.session.out + todo == s.history[s.from..s.read]
      && s.session.seen == Ids(s.session.out)
    case Live =>
      && s.from <= s.read <= |s.history| && s.taken <= |s.queued| && InRange(s.queued, |s.history|)
      && s.session == Delivered(s.history, s.from, s.read, Received(s))
  }

  ghost predicate Inv(s: State, since: string) {
    && HistoryInv(s)
    && ChannelInv(s)
    && (!s.miss ==> SessionInv(s))
    && (!s.miss && (s.phase.CatchingUp? || s.phase.Live?) ==> WindowInv(s, since))
    && (s.phase.Detached? || s.phase.Subscribed? ==> !s.miss)
  }

  lemma InitInv(ringCap: nat, chanCap: nat, since: string)
    ensures Inv(Init(ringCap, chanCap), since)
  {
  }

  lemma HistoryStep(s: State, since: string, step: Step)
    requires HistoryInv(s) && Enabled(s, step)
    ensures HistoryInv(Apply(s, since, step))
  {
  }

  lemma AppendKeepsChannel(s: State, since: string, step: Step)
    requires ChannelInv(s) && Enabled(s, step) && step.Append?
    ensures ChannelInv(Apply(s, since, step))
  {
    var s' := Apply(s, since, step);
    assert At(s'.history, s.queued[s.taken..]) == At(s.history, s.queued[s.taken..]);
  }

  lemma BroadcastKeepsChannel(s: State, since: string, step: Step)
    requires ChannelInv(s) && Enabled(s, step) && step.Broadcast?
    ensures ChannelInv(Apply(s, since, step))
  {
    var s' := Apply(s, since, step);
    if !s.phase.Detached? && |s.queue| < s.chanCap {
      assert s'.queued[s.taken..] == s.queued[s.taken..] + [s.announced];
    }
  }

  lemma WatcherKeepsChannel(s: State, since: string, step: Step)
    requires ChannelInv(s) && Enabled(s, step) && !step.Append? && !step.Broadcast?
    ensures ChannelInv(Apply(s, since, step))
  {
    var s' := Apply(s, since, step);
    if step.Take? {
      assert s'.queued[s'.taken..] == s.queued[s.taken..][1..];
    }
  }

  lemma WindowIds(h: seq<Event>, lo: nat, hi: nat, i: nat)
    requires UniqueIds(h) && lo <= hi <= |h| && i < |h|
    ensures h[i].id in Ids(h[lo..hi]) <==> lo <= i < hi
  {
    var w := h[lo..hi];
    forall k | 0 <= k < |w| ensures w[k].id == h[i].id <==> lo + k == i {
      assert w[k] == h[lo + k];
    }
    if lo <= i < hi {
      assert w[i - lo].id in Ids(w);
    }
  }

  /** What the ring gives for a cursor it holds: the rest of the history after the cursor. */
  lemma RingSuffix(h: seq<Event>, cap: nat, since: string)
    requires SinceIn(LastN(h, cap), since).Some?
    ensures var events := SinceIn(LastN(h, cap), since).value;
            |events| < |h| && events == h[|h| - |events|..] && h[|h| - |events| - 1].id == since
  {
    var ring := LastN(h, cap);
    var k := FirstIndex(ring, since);
    var d := |h| - |ring|;
    assert ring[k] == h[d + k];
    assert ring[k + 1..] == h[d + k + 1..];
  }

  lemma ReadRingStep(s: State, since: string, step: Step)
    requires SessionInv(s) && Enabled(s, step) && step.ReadRing? && s.joined <= |s.history|
    ensures var s' := Apply(s, since, step); !s'.miss ==> SessionInv(s') && WindowInv(s', since)
  {
    if since != "" && SinceIn(LastN(s.history, s.ringCap), since).Some? {
      RingSuffix(s.history, s.ringCap, since);
    }
  }

  lemma WriteStep(s: State, since: string, step: Step)
    requires ChannelInv(s) && SessionInv(s) && Enabled(s, step) && step.WriteCatchUp?
    ensures SessionInv(Apply(s, since, step))
  {
    var todo := s.phase.todo;
    if todo != [] {
      IdsAppend(s.session.out, todo[0]);
      assert s.session.out + todo == s.session.out + [todo[0]] + todo[1..];
    } else {
      assert Received(s) == [];
      assert s.session.out == s.history[s.from..s.read];
      assert At(s.history, []) == [];
    }
  }

  lemma TakeStep(s: State, since: string, step: Step)
    requires UniqueIds(s.history) && ChannelInv(s) && SessionInv(s) && Enabled(s, step) && step.Take?
    ensures SessionInv(Apply(s, since, step))
  {
    var i := s.queued[s.taken];
    assert s.queue[0] == s.history[i];
    assert s.queued[..s.taken + 1] == Received(s) + [i];
    WindowIds(s.history, s.from, s.read, i);
    DeliveredReceive(s.history, s.from, s.read, Received(s), i);
  }

  lemma EmitStep(s: State, since: string, step: Step)
    requires ChannelInv(s) && SessionInv(s) && Enabled(s, step) && (step.Append? || step.Broadcast?)
    ensures SessionInv(Apply(s, since, step))
  {
    var s' := Apply(s, since, step);
    if s.phase.Live? {
      assert Received(s') == Received(s);
      if step.Append? {
        DeliveredGrow(s.history, step.e, s.from, s.read, Received(s));
      }
    } else if s.phase.CatchingUp? {
      assert s'.history[s.from..s.read] == s.history[s.from..s.read];
    }
  }

  lemma ChannelStep(s: State, since: string, step: Step)
    requires ChannelInv(s) && Enabled(s, step)
    ensures ChannelInv(Apply(s, since, step))
  {
    if step.Append? {
      AppendKeepsChannel(s, since, step);
    } else if step.Broadcast? {
      BroadcastKeepsChannel(s, since, step);
    } else {
      WatcherKeepsChannel(s, since, step);
    }
  }

  lemma SessionStep(s: State, since: string, step: Step)
    requires UniqueIds(s.history) && ChannelInv(s) && SessionInv(s) && Enabled(s, step)
    ensures var s' := Apply(s, since, step); !s'.miss ==> SessionInv(s')
  {
    match step
    case Append(_) => EmitStep(s, since, step);
    case Broadcast => EmitStep(s, since, step);
    case Subscribe =>
    case ReadRing(_) => ReadRingStep(s, since, step);
    case WriteCatchUp => WriteStep(s, since, step);
    case Take => TakeStep(s, since, step);
  }

  lemma WindowStep(s: State, since: string, step: Step)
    requires WindowInv(s, since) && Enabled(s, step) && !step.ReadRing? && !step.Subscribe?
    ensures WindowInv(Apply(s, since, step), since)
  {
  }

  /** Every step of the emitter or the watcher keeps the invariant. */
  lemma StepKeepsInv(s: State, since: string, step: Step)
    requires Inv(s, since) && Enabled(s, step)
    ensures Inv(Apply(s, since, step), since)
  {
    HistoryStep(s, since, step);
    ChannelStep(s, since, step);
    if !s.miss {
      SessionStep(s, since, step);
      if step.ReadRing? {
        ReadRingStep(s, since, step);
      } else if s.phase.CatchingUp? || s.phase.Live? {
        WindowStep(s, since, step);
      }
    }
  }

  /** A run: states linked by enabled steps, from the initial state. */
  ghost predicate IsRun(trace: seq<State>, steps: seq<Step>, since: string) {
    && |trace| == |steps| + 1
    && trace[0] == Init(trace[0].ringCap, trace[0].chanCap)
    && forall i :: 0 <= i < |steps| ==> Enabled(trace[i], steps[i]) && trace[i + 1] == Apply(trace[i], since, steps[i])
  }

  lemma {:induction false} RunKeepsInv(trace: seq<State>, steps: seq<Step>, since: string, i: nat)
    requires IsRun(trace, steps, since) && i < |trace|
    ensures Inv(trace[i], since)
  {
    if i == 0 {
      InitInv(trace[0].ringCap, trace[0].chanCap, since);
    } else {
      RunKeepsInv(trace, steps, since, i - 1);
      StepKeepsInv(trace[i - 1], since, steps[i - 1]);
    }
  }

  /** No broadcast since Subscribe was dropped on a full channel. */
  ghost predicate NoDrop(s: State) {
    s.phase.Detached? || (s.joined <= s.announced && s.queued == Range(s.joined, s.announced))
  }

  lemma NoDropReceives(s: State)
    requires ChannelInv(s) && NoDrop(s) && !s.phase.Detached?
    ensures s.joined + s.taken <= s.announced && Received(s) == Range(s.joined, s.joined + s.taken)
  {
  }

  lemma LiveOutputBelow(s: State, since: string)
    requires ChannelInv(s) && SessionInv(s) && WindowInv(s, since) && s.phase.Live? && NoDrop(s) && s.joined < s.from
    ensures s.joined + s.taken <= s.announced
    ensures s.session.out == s.history[s.from..s.read] + s.history[s.joined..s.joined + s.taken]
  {
    NoDropReceives(s);
    DeliveredBelow(s.history, s.from, s.read, s.joined, s.joined + s.taken);
  }

  lemma LiveOutputInside(s: State, since: string)
    requires ChannelInv(s) && SessionInv(s) && WindowInv(s, since) && s.phase.Live? && NoDrop(s) && s.from <= s.joined
    ensures s.joined + s.taken <= s.announced
    ensures s.session.out == s.history[s.from..if s.joined + s.taken <= s.read then s.read else s.joined + s.taken]
  {
    NoDropReceives(s);
    DeliveredInside(s.history, s.from, s.read, s.joined, s.joined + s.taken);
  }

  /** The output of a live watcher whose channel dropped nothing, in every case. */
  lemma LiveOutput(s: State, since: string)
    requires ChannelInv(s) && SessionInv(s) && WindowInv(s, since) && s.phase.Live? && NoDrop(s)
    ensures s.joined + s.taken <= s.announced
    ensures s.session.out ==
            if s.joined < s.from then s.history[s.from..s.read] + s.history[s.joined..s.joined + s.taken]
            else s.history[s.from..if s.joined + s.taken <= s.read then s.read else s.joined + s.taken]
  {
    if s.joined < s.from {
      LiveOutputBelow(s, since);
    } else {
      LiveOutputInside(s, since);
    }
  }

  lemma CaughtUpPrefix(s: State, since: string)
    requires WindowInv(s, since) && SessionInv(s) && s.phase.CatchingUp?
    ensures s.session.out <= s.history[s.from..]
    ensures since == "" ==> s.session.out == []
  {
    assert s.history[s.from..s.read] <= s.history[s.from..];
  }

  /** Where the watcher's stream starts: right after the cursor, or at Subscribe without one. */
  function StreamStart(s: State, since: string): nat {
    if since == "" then s.joined else s.from
  }

  /** With a cursor broadcast by Subscribe, the output continues right after it. */
  lemma LiveAfterCursor(s: State, since: string)
    requires ChannelInv(s) && SessionInv(s) && WindowInv(s, since) && s.phase.Live? && NoDrop(s) && s.from <= s.joined
    ensures s.session.out <= s.history[s.from..]
  {
    LiveOutputInside(s, since);
    var end := if s.joined + s.taken <= s.read then s.read else s.joined + s.taken;
    StretchIsPrefix(s.history, 0, s.from, end - s.from);
    assert s.history[0..0] + s.history[s.from..end] == s.history[s.from..end];
  }

  /** Without a cursor it starts at Subscribe. */
  lemma LiveFromSubscribe(s: State)
    requires ChannelInv(s) && SessionInv(s) && WindowInv(s, "") && s.phase.Live? && NoDrop(s) && s.joined < s.from
    ensures s.session.out <= s.history[s.joined..]
  {
    LiveOutputBelow(s, "");
    StretchIsPrefix(s.history, s.from, s.joined, s.taken);
  }

  lemma StretchIsPrefix(h: seq<Event>, from: nat, lo: nat, n: nat)
    requires from <= |h| && lo + n <= |h|
    ensures h[from..from] + h[lo..lo + n] <= h[lo..]
  {
    assert h[from..from] + h[lo..lo + n] == h[lo..][..n];
  }

  /** Without a cursor and without broadcasts in between, the two are the same. */
  lemma LiveInOrder(s: State, since: string)
    requires ChannelInv(s) && SessionInv(s) && WindowInv(s, since) && s.phase.Live? && NoDrop(s)
    requires since != "" ==> s.from <= s.joined
    ensures StreamStart(s, since) <= |s.history| && s.session.out <= s.history[StreamStart(s, since)..]
  {
    if s.from <= s.joined {
      assert StreamStart(s, since) == s.from;
      LiveAfterCursor(s, since);
    } else {
      assert StreamStart(s, since) == s.joined;
      LiveFromSubscribe(s);
    }
  }

  /** Exactly-once, in-order delivery. In every reachable state, when no broadcast was dropped, the
      ring still held the cursor and the cursor had been broadcast before Subscribe, the output is a
      prefix of what follows the cursor; without a cursor, of what follows the Subscribe. */
  lemma ExactlyOnce(trace: seq<State>, steps: seq<Step>, since: string, n: nat)
    requires IsRun(trace, steps, since) && n < |trace|
    requires var s := trace[n]; (s.phase.CatchingUp? || s.phase.Live?) && !s.miss && NoDrop(s)
    requires since != "" ==> trace[n].from <= trace[n].joined
    ensures since != "" ==> 0 < trace[n].from <= |trace[n].history| && trace[n].history[trace[n].from - 1].id == since
    ensures StreamStart(trace[n], since) <= |trace[n].history|
            && trace[n].session.out <= trace[n].history[StreamStart(trace[n], since)..]
  {
    RunKeepsInv(trace, steps, since, n);
    var s := trace[n];
    if s.phase.CatchingUp? {
      CaughtUpPrefix(s, since);
    } else {
      LiveInOrder(s, since);
    }
  }

  /** The condition on the cursor is exact: once a live event has been received, the output is a
      prefix of what follows the cursor if and only if the cursor had been broadcast by Subscribe. */
  lemma ExactlyOnceIff(s: State, since: string)
    requires Inv(s, since) && !s.miss && s.phase.Live? && NoDrop(s) && since != ""
    ensures s.session.out <= s.history[s.from..] <==> s.from <= s.joined || s.taken == 0
  {
    LiveOutput(s, since);
    if s.joined < s.from && s.taken > 0 {
      RepeatIsNoPrefix(s.history, s.from, s.read, s.joined, s.taken);
    }
  }

  lemma RepeatIsNoPrefix(h: seq<Event>, from: nat, read: nat, joined: nat, taken: nat)
    requires UniqueIds(h) && joined < from <= read <= |h| && 0 < taken && joined + taken <= |h|
    ensures !(h[from..read] + h[joined..joined + taken] <= h[from..])
  {
    var out := h[from..read] + h[joined..joined + taken];
    var k := read - from;
    assert out[k] == h[joined];
    if read < |h| {
      assert h[from..][k] == h[read];
      assert h[joined].id != h[read].id;
    }
  }

  /** The positions behind the output of a live watcher. */
  function Positions(s: State): seq<nat>
    requires s.from <= s.read && s.taken <= |s.queued|
  {
    Range(s.from, s.read) + Received(s)[WindowLen(Received(s), s.from, s.read)..]
  }

  /** An increasing reception at or above `from` leaves the window once and never comes back. */
  lemma AboveWindow(q: seq<nat>, from: nat, read: nat)
    requires Increasing(q) && from <= read && forall i :: 0 <= i < |q| ==> from <= q[i]
    ensures Increasing(Range(from, read) + q[WindowLen(q, from, read)..])
  {
    WindowLenMeans(q, from, read);
    var k := WindowLen(q, from, read);
    forall j | k <= j < |q| ensures q[j] >= read {
      assert j > k ==> q[k] < q[j];
    }
  }

  lemma EmptyWindow(r: seq<nat>, lo: nat)
    ensures WindowLen(r, lo, lo) == 0
  {
  }

  lemma PositionsIncrease(s: State, since: string)
    requires ChannelInv(s) && WindowInv(s, since) && (since != "" ==> s.from <= s.joined)
    ensures Increasing(Positions(s))
  {
    if since == "" {
      EmptyWindow(Received(s), s.from);
      assert Positions(s) == Received(s);
    } else {
      AboveWindow(Received(s), s.from, s.read);
    }
  }

  /** With drops allowed, in every run: the output of a live watcher without a cursor, or with one that
      was broadcast by Subscribe, is the history at strictly increasing positions: in order and free
      of duplicates. */
  lemma InOrderDespiteDrops(trace: seq<State>, steps: seq<Step>, since: string, n: nat)
    requires IsRun(trace, steps, since) && n < |trace| && trace[n].phase.Live? && !trace[n].miss
    requires since != "" ==> trace[n].from <= trace[n].joined
    ensures var s := trace[n];
            && s.from <= s.read && s.taken <= |s.queued|
            && Increasing(Positions(s)) && InRange(Positions(s), |s.history|)
            && s.session.out == At(s.history, Positions(s))
  {
    RunKeepsInv(trace, steps, since, n);
    PositionsIncrease(trace[n], since);
    OutputAtPositions(trace[n]);
  }

  lemma AtWindow(h: seq<Event>, from: nat, read: nat, t: seq<nat>)
    requires from <= read <= |h| && InRange(t, |h|)
    ensures InRange(Range(from, read) + t, |h|)
    ensures At(h, Range(from, read) + t) == h[from..read] + At(h, t)
  {
  }

  // --- What is missing from the output ---

  /** Since Subscribe every broadcast was either accepted or dropped, never both. */
  ghost predicate Accounted(s: State) {
    && |s.queue| <= s.chanCap
    && (s.phase.Detached? ==> s.queue == [])
    && (!s.phase.Detached? ==> forall i :: s.joined <= i < s.announced <==> i in s.queued || i in s.dropped)
    && (forall i :: i in s.queued ==> i !in s.dropped)
    && (forall i :: i in s.queued || i in s.dropped ==> i < s.announced)
  }

  lemma StepAccounted(s: State, since: string, step: Step)
    requires Accounted(s) && Enabled(s, step) && s.joined <= s.announced
    requires s.phase.Detached? ==> s.queued == [] && s.dropped == []
    ensures Accounted(Apply(s, since, step))
    ensures Apply(s, since, step).phase.Detached? ==>
              Apply(s, since, step).queued == [] && Apply(s, since, step).dropped == []
  {
  }

  lemma {:induction false} RunAccounted(trace: seq<State>, steps: seq<Step>, since: string, n: nat)
    requires IsRun(trace, steps, since) && n < |trace|
    ensures Accounted(trace[n]) && (trace[n].phase.Detached? ==> trace[n].queued == [] && trace[n].dropped == [])
  {
    if n > 0 {
      RunAccounted(trace, steps, since, n - 1);
      RunKeepsInv(trace, steps, since, n - 1);
      StepAccounted(trace[n - 1], since, steps[n - 1]);
    }
  }

  ghost predicate Covers(q: seq<nat>, lo: nat, hi: nat) {
    forall i :: lo <= i < hi <==> i in q
  }

  lemma CoverFront(q: seq<nat>, lo: nat, hi: nat)
    requires Increasing(q) && Covers(q, lo, hi) && q != []
    ensures lo < hi && q[|q| - 1] == hi - 1 && Covers(q[..|q| - 1], lo, hi - 1)
  {
    var front, last := q[..|q| - 1], q[|q| - 1];
    assert last in q && hi - 1 in q;
    assert forall i :: i in q ==> i <= last;
    assert forall j :: 0 <= j < |front| ==> front[j] == q[j] && q[j] in q;
    forall i | i in q && i != last ensures i in front {
      var j :| 0 <= j < |q| && q[j] == i;
      assert front[j] == i;
    }
  }

  lemma {:induction false} IncreasingCover(q: seq<nat>, lo: nat, hi: nat)
    requires Increasing(q) && lo <= hi && Covers(q, lo, hi)
    ensures q == Range(lo, hi)
    decreases |q|
  {
    assert lo == hi || lo in q;
    if q != [] {
      CoverFront(q, lo, hi);
      IncreasingCover(q[..|q| - 1], lo, hi - 1);
      assert q == q[..|q| - 1] + [hi - 1];
    }
  }

  /** In every run, the guard of ExactlyOnce says that nothing was dropped. */
  lemma NoDropIff(trace: seq<State>, steps: seq<Step>, since: string, n: nat)
    requires IsRun(trace, steps, since) && n < |trace|
    ensures NoDrop(trace[n]) <==> trace[n].dropped == []
  {
    RunKeepsInv(trace, steps, since, n);
    RunAccounted(trace, steps, since, n);
    var s := trace[n];
    if !s.phase.Detached? {
      if s.dropped == [] {
        IncreasingCover(s.queued, s.joined, s.announced);
      } else {
        var d := s.dropped[0];
        assert d in s.dropped;
        assert Range(s.joined, s.announced)[d - s.joined] == d;
      }
    }
  }

  /** A position the watcher received is behind its output. */
  lemma ReceivedIsShown(s: State, j: nat)
    requires s.from <= s.read && s.taken <= |s.queued| && j < s.taken
    ensures s.queued[j] in Positions(s)
  {
    var r, p := Received(s), Positions(s);
    var k := WindowLen(r, s.from, s.read);
    WindowLenMeans(r, s.from, s.read);
    assert r[j] == s.queued[j];
    if j < k {
      assert p[r[j] - s.from] == r[j];
    } else {
      assert p[s.read - s.from + j - k] == r[j];
    }
  }

  /** What is behind the output was caught up or received. */
  lemma ShownIsReceived(s: State, i: nat)
    requires s.from <= s.read && s.taken <= |s.queued|
    ensures i in Positions(s) ==> s.from <= i < s.read || exists j :: 0 <= j < s.taken && s.queued[j] == i
    ensures s.from <= i < s.read ==> i in Positions(s)
  {
    var r, p := Received(s), Positions(s);
    var k := WindowLen(r, s.from, s.read);
    if i in p {
      var x :| 0 <= x < |p| && p[x] == i;
      if x >= s.read - s.from {
        assert s.queued[k + x - (s.read - s.from)] == i;
      }
    }
    if s.from <= i < s.read {
      assert p[i - s.from] == i;
    }
  }

  lemma MissingPosition(s: State, i: nat)
    requires ChannelInv(s) && Accounted(s) && !s.phase.Detached? && s.from <= s.read && s.joined <= s.read
    requires i < s.announced && (s.from <= i || s.joined <= i)
    ensures i !in Positions(s) <==> !(s.from <= i < s.read) && (i in s.queued[s.taken..] || i in s.dropped)
  {
    ShownIsReceived(s, i);
    forall j | 0 <= j < s.taken ensures s.queued[j] in Positions(s) {
      ReceivedIsShown(s, j);
    }
    assert forall j :: s.taken <= j < |s.queued| ==> s.queued[j] in s.queued[s.taken..] by {
      assert forall j :: s.taken <= j < |s.queued| ==> s.queued[s.taken..][j - s.taken] == s.queued[j];
    }
  }

  lemma OutputAtPositions(s: State)
    requires SessionInv(s) && s.phase.Live?
    ensures InRange(Positions(s), |s.history|) && s.session.out == At(s.history, Positions(s))
  {
    AtWindow(s.history, s.from, s.read, Received(s)[WindowLen(Received(s), s.from, s.read)..]);
  }

  lemma ShownByPosition(h: seq<Event>, p: seq<nat>, i: nat)
    requires UniqueIds(h) && InRange(p, |h|) && i < |h|
    ensures h[i] in At(h, p) <==> i in p
  {
    if i in p {
      var x :| 0 <= x < |p| && p[x] == i;
      assert At(h, p)[x] == h[i];
    }
  }

  /** With drops allowed, in every run: a broadcast event after the cursor or after Subscribe is missing
      from a live watcher's output if and only if it was not caught up and is either still buffered or
      was dropped on a full channel. */
  lemma OnlyDropsAreMissing(trace: seq<State>, steps: seq<Step>, since: string, n: nat, i: nat)
    requires IsRun(trace, steps, since) && n < |trace| && trace[n].phase.Live? && !trace[n].miss
    requires i < trace[n].announced && (trace[n].from <= i || trace[n].joined <= i)
    ensures var s := trace[n];
            && i < |s.history| && s.taken <= |s.queued|
            && (s.history[i] !in s.session.out <==>
                !(s.from <= i < s.read) && (i in s.queued[s.taken..] || i in s.dropped))
  {
    RunKeepsInv(trace, steps, since, n);
    RunAccounted(trace, steps, since, n);
    OutputAtPositions(trace[n]);
    ShownByPosition(trace[n].history, Positions(trace[n]), i);
    MissingPosition(trace[n], i);
  }

  // --- A duplicate ---

  /** The cursor event is appended, the watcher subscribes, and only then it is broadcast. */
  function LateBroadcast(e: Event): seq<Step> {
    [Append(e), Subscribe, Broadcast, ReadRing([]), WriteCatchUp, Take]
  }

  function LateBroadcastTrace(e: Event): seq<State> {
    var none := Session({}, []);
    [ Init(1, 1),
      State([e], 0, 1, 1, Detached, [], none, 0, 0, 0, false, [], 0, []),
      State([e], 0, 1, 1, Subscribed, [], none, 0, 0, 0, false, [], 0, []),
      State([e], 1, 1, 1, Subscribed, [e], none, 0, 0, 0, false, [0], 0, []),
      State([e], 1, 1, 1, CatchingUp([]), [e], none, 0, 1, 1, false, [0], 0, []),
      State([e], 1, 1, 1, Live, [e], none, 0, 1, 1, false, [0], 0, []),
      State([e], 1, 1, 1, Live, [], Session({}, [e]), 0, 1, 1, false, [0], 1, []) ]
  }

  /** A run in which a watcher that resumes after an event is sent that event again. */
  lemma CursorDeliveredAgain(e: Event)
    requires e.id != ""
    ensures IsRun(LateBroadcastTrace(e), LateBroadcast(e), e.id)
    ensures var s := LateBroadcastTrace(e)[6];
            s.joined < s.from && NoDrop(s) && s.session.out == [e] && s.history[s.from..] == []
  {
    var t := LateBroadcastTrace(e);
    var id := e.id;
    assert t[1] == Apply(t[0], id, Append(e));
    assert t[2] == Apply(t[1], id, Subscribe);
    assert t[3] == Apply(t[2], id, Broadcast);
    assert LastN([e], 1) == [e] && FirstIndex([e], id) == 0 && SinceIn([e], id) == Some([]);
    assert t[4] == Apply(t[3], id, ReadRing([]));
    assert t[5] == Apply(t[4], id, WriteCatchUp);
    assert t[6] == Apply(t[5], id, Take);
    assert Range(0, 1) == [0];
  }
}
