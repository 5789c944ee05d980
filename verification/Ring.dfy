/** The per-agent event ring and the store of rings (internal/events/ring.go). */
module Ring {
  import opened EventTypes

  const DEFAULT_RING_SIZE := 100

  /** The last `n` elements of `s`, or all of `s` when it is shorter. */
  function LastN<T>(s: seq<T>, n: nat): (r: seq<T>)
    ensures |r| == if n < |s| then n else |s|
  {
    if n < |s| then s[|s| - n..] else s
  }

  /** Position of the first event with the given id, or -1. */
  function FirstIndex(s: seq<Event>, id: string): (k: int)
    ensures -1 <= k < |s|
    ensures k >= 0 ==> s[k].id == id
    ensures forall j :: 0 <= j < (if k >= 0 then k else |s|) ==> s[j].id != id
  {
    if s == [] then -1
    else if s[0].id == id then 0
    else
      var k := FirstIndex(s[1..], id);
      assert forall j :: 0 < j < |s| ==> s[j] == s[1..][j - 1];
      if k < 0 then -1 else k + 1
  }

  /** What Since answers over a chronological sequence: None stands for the nil slice. */
  function SinceIn(s: seq<Event>, id: string): Option<seq<Event>> {
    var k := FirstIndex(s, id);
    if k < 0 then None else Some(s[k + 1..])
  }

  /** Keeping the last n, appending, and keeping the last n again is keeping the last n of the whole. */
  lemma LastNAppend<T>(h: seq<T>, e: T, n: nat)
    ensures LastN(LastN(h, n) + [e], n) == LastN(h + [e], n)
  {
    if n < |h| {
      assert LastN(h, n) + [e] == (h + [e])[|h| - n..];
    }
  }

  /** The contents after appending a whole history to an empty ring of capacity n. */
  function Replay<T>(h: seq<T>, n: nat): seq<T> {
    if h == [] then [] else LastN(Replay(h[..|h| - 1], n) + [h[|h| - 1]], n)
  }

  /** For every history and capacity, the ring holds the last n events of the history. */
  lemma {:induction false} ReplayIsLastN<T>(h: seq<T>, n: nat)
    ensures Replay(h, n) == LastN(h, n)
  {
    if h != [] {
      var front, last := h[..|h| - 1], h[|h| - 1];
      ReplayIsLastN(front, n);
      LastNAppend(front, last, n);
      assert front + [last] == h;
    }
  }

  /** Reading the last k of the last n reads the last min(k, n). */
  lemma LastNOfLastN<T>(h: seq<T>, n: nat, k: nat)
    ensures LastN(LastN(h, n), k) == LastN(h, if k < n then k else n)
  {
    if k < n < |h| {
      assert h[|h| - n..][n - k..] == h[|h| - k..];
    }
  }

  /** Index arithmetic of the circular buffer: reduces an index below twice the capacity. */
  function Wrap(x: int, cap: nat): (k: nat)
    requires 0 <= x < 2 * cap
    ensures k < cap
  {
    if x < cap then x else x - cap
  }

  /** On the indices the buffer computes, Wrap is the remainder by the capacity. */
  lemma WrapIsMod(x: int, cap: nat)
    requires 0 <= x < 2 * cap
    ensures Wrap(x, cap) == x % cap
  {
    if x >= cap {
      assert x == 1 * cap + (x - cap);
    }
  }

  /** The remainder as the program computes it. */
  method Mod(x: int, cap: nat) returns (k: nat)
    requires 0 <= x < 2 * cap
    ensures k == Wrap(x, cap)
  {
    WrapIsMod(x, cap);
    k := x % cap;
  }

  lemma FirstIndexIs(s: seq<Event>, id: string, k: nat)
    requires k < |s| && s[k].id == id
    requires forall j :: 0 <= j < k ==> s[j].id != id
    ensures FirstIndex(s, id) == k
  {
    var f := FirstIndex(s, id);
    assert s[k].id == id;
  }

  /** Over a history with unique ids, Since on the ring finds exactly the retained ids, and answers
      with everything appended after the id, whatever was evicted before it. */
  lemma {:induction false} SinceOnHistory(h: seq<Event>, n: nat, p: nat)
    requires UniqueIds(h) && p < |h|
    ensures SinceIn(LastN(h, n), h[p].id) == if |h| - p <= n then Some(h[p + 1..]) else None
  {
    var r := LastN(h, n);
    var d := |h| - |r|;
    var id := h[p].id;
    if |h| - p <= n {
      forall j | 0 <= j < p - d ensures r[j].id != id {
        assert r[j] == h[d + j];
      }
      assert r[p - d] == h[p];
      FirstIndexIs(r, id, p - d);
      assert r[p - d + 1..] == h[p + 1..];
    } else {
      forall j | 0 <= j < |r| ensures r[j].id != id {
        assert r[j] == h[d + j];
      }
    }
  }

  /** The i-th oldest of `count` elements of a circular buffer whose next write position is `head`. */
  function Slot(cap: nat, head: nat, count: nat, i: nat): (k: nat)
    requires head < cap && i < count <= cap
    ensures k < cap
  {
    Wrap(Wrap(head + cap - count, cap) + i, cap)
  }

  /** The elements of a circular buffer, oldest first. */
  function Unroll<T>(a: seq<T>, head: nat, count: nat): (s: seq<T>)
    requires head < |a| && count <= |a|
    ensures |s| == count
    ensures forall i :: 0 <= i < count ==> s[i] == a[Slot(|a|, head, count, i)]
  {
    seq(count, i requires 0 <= i < count => a[Slot(|a|, head, count, i)])
  }

  /** Counting from the start of the last m gives the same slots. */
  lemma SlotFromStart(cap: nat, head: nat, count: nat, m: nat, i: nat)
    requires head < cap && i < m <= count <= cap
    ensures Wrap(Wrap(head + cap - m, cap) + i, cap) == Slot(cap, head, count, count - m + i)
  {
  }

  /** After a write at the head, the i-th oldest slot is the head itself for the newest element and
      the slot it had before otherwise. */
  lemma SlotAfterWrite(cap: nat, head: nat, count: nat, i: nat)
    requires head < cap && count <= cap
    requires i < if count < cap then count + 1 else count
    ensures var count' := if count < cap then count + 1 else count;
            var slot := Slot(cap, Wrap(head + 1, cap), count', i);
            var was := i + count + 1 - count';
            if was == count then slot == head else slot == Slot(cap, head, count, was) && slot != head
  {
  }

  /** Writing at the head and advancing it appends, and drops the oldest element when full. */
  lemma {:induction false} UnrollAppend<T>(a: seq<T>, head: nat, count: nat, e: T)
    requires head < |a| && count <= |a|
    ensures Unroll(a[head := e], Wrap(head + 1, |a|), if count < |a| then count + 1 else count)
            == LastN(Unroll(a, head, count) + [e], |a|)
  {
    var count' := if count < |a| then count + 1 else count;
    var before := Unroll(a, head, count);
    var got := Unroll(a[head := e], Wrap(head + 1, |a|), count');
    var want := LastN(before + [e], |a|);
    forall i | 0 <= i < count' ensures got[i] == want[i] {
      var was := i + count + 1 - count';
      SlotAfterWrite(|a|, head, count, i);
      assert want[i] == (before + [e])[was];
    }
  }

  /** A fixed-size circular buffer. `History` is every event ever appended, `Contents` what is
      retained of it, oldest first. */
  class AgentRing {
    const events: array<Event>
    var head: nat
    var count: nat
    ghost var History: seq<Event>
    ghost var Contents: seq<Event>

    ghost predicate Valid()
      reads this, events
    {
      && head < events.Length
      && count <= events.Length
      && Contents == Unroll(events[..], head, count)
      && Contents == LastN(History, events.Length)
    }

    constructor (size: int, fill: Event)
      ensures Valid() && fresh(events) && History == []
      ensures events.Length == if size <= 0 then 100 else size
    {
      var n := if size <= 0 then DEFAULT_RING_SIZE else size;
      events := new Event[n](_ => fill);
      head, count, History, Contents := 0, 0, [], [];
    }

    method Append(e: Event)
      requires Valid()
      modifies this, events
      ensures Valid() && History == old(History) + [e]
      ensures Contents == LastN(old(Contents) + [e], events.Length)
    {
      UnrollAppend(events[..], head, count, e);
      LastNAppend(History, e, events.Length);
      events[head] := e;
      head := Mod(head + 1, events.Length);
      if count < events.Length {
        count := count + 1;
      }
      History := History + [e];
      Contents := LastN(Contents + [e], events.Length);
      assert events[..] == old(events[..])[old(head) := e];
    }

    /** The last n retained events, oldest first: the last min(n, cap) of everything ever appended. */
    method Recent(n: int) returns (r: seq<Event>)
      requires Valid()
      ensures r == if n <= 0 then [] else LastN(Contents, n)
      ensures r == if n <= 0 then [] else LastN(History, if n < events.Length then n else events.Length)
    {
      if n <= 0 || count == 0 {
        return [];
      }
      LastNOfLastN(History, events.Length, n);
      r := Newest(if n > count then count else n);
    }

    method Newest(m: nat) returns (r: seq<Event>)
      requires Valid() && m <= count
      ensures r == Contents[count - m..]
    {
      var cap := events.Length;
      var start := Mod(head + cap - m, cap);
      r := [];
      ghost var want := Contents[count - m..];
      for i := 0 to m
        invariant r == want[..i]
      {
        SlotFromStart(cap, head, count, m, i);
        var k := Mod(start + i, cap);
        r := r + [events[k]];
      }
    }

    /** Scans from the oldest event for the first one with this id. */
    method Find(eventId: string) returns (i: int)
      requires Valid()
      ensures i == FirstIndex(Contents, eventId)
    {
      var cap := events.Length;
      ghost var all := Contents;
      var oldest := Mod(head + cap - count, cap);
      for k := 0 to count
        invariant forall j :: 0 <= j < k ==> all[j].id != eventId
      {
        assert all[k] == events[..][Wrap(oldest + k, cap)];
        var idx := Mod(oldest + k, cap);
        if events[idx].id == eventId {
          FirstIndexIs(all, eventId, k);
          return k;
        }
      }
      return -1;
    }

    /** The retained events from the k-th oldest on. */
    method CopyFrom(k: nat) returns (out: seq<Event>)
      requires Valid() && k <= count
      ensures out == Contents[k..]
    {
      var cap := events.Length;
      ghost var all := Contents;
      var oldest := Mod(head + cap - count, cap);
      out := [];
      for i := k to count
        invariant out == all[k..i]
      {
        assert all[i] == events[..][Wrap(oldest + i, cap)];
        var idx := Mod(oldest + i, cap);
        out := out + [events[idx]];
      }
      assert all[k..count] == all[k..];
    }

    /** Everything after the first retained event with this id; None when the id is not retained. */
    method Since(eventId: string) returns (r: Option<seq<Event>>)
      requires Valid()
      ensures r == SinceIn(Contents, eventId)
    {
      var found := Find(eventId);
      if found < 0 {
        return None;
      }
      var out := CopyFrom(found + 1);
      return Some(out);
    }
  }

  /** What a view of the store holds for a task; nothing when the task has no ring. */
  function HeldFor(rings: map<string, seq<Event>>, task: string): seq<Event> {
    if task in rings then rings[task] else []
  }

  /** Ring buffers for all agents, with the times at which agents became terminal. Each ring is
      represented by its contents, as AgentRing's contracts give them. */
  class EventStore {
    var rings: map<string, seq<Event>>
    var terminalTimes: map<string, int>
    const ringSize: nat
    const ttl: int

    constructor (size: int, ttl0: int)
      ensures rings == map[] && terminalTimes == map[]
      ensures ringSize == if size <= 0 then 100 else size
      ensures ttl == if ttl0 == 0 then 1_800_000_000_000 else ttl0
    {
      ringSize := if size <= 0 then DEFAULT_RING_SIZE else size;
      ttl := if ttl0 == 0 then 1_800_000_000_000 else ttl0;
      rings, terminalTimes := map[], map[];
    }

    /** Appends to one task's ring, creating it on first use; every other task's ring is as it was. */
    method Append(task: string, e: Event)
      modifies this`rings
      ensures rings == old(rings)[task := LastN(HeldFor(old(rings), task) + [e], ringSize)]
    {
      if task !in rings {
        rings := rings[task := []];
      }
      rings := rings[task := LastN(rings[task] + [e], ringSize)];
    }

    method Recent(task: string, n: int) returns (r: seq<Event>)
      ensures r == if n <= 0 then [] else LastN(HeldFor(rings, task), n)
    {
      if task !in rings || n <= 0 {
        return [];
      }
      r := LastN(rings[task], n);
    }

    method Since(task: string, eventId: string) returns (r: Option<seq<Event>>)
      ensures r == SinceIn(HeldFor(rings, task), eventId)
    {
      if task !in rings {
        return None;
      }
      r := SinceIn(rings[task], eventId);
    }

    method MarkTerminal(task: string, at: int)
      modifies this`terminalTimes
      ensures terminalTimes == old(terminalTimes)[task := at]
    {
      terminalTimes := terminalTimes[task := at];
    }

    /** Drops exactly the rings whose terminal time is more than the TTL in the past. */
    method Cleanup(now: int) returns (removed: nat)
      modifies this
      ensures var expired := set t | t in old(terminalTimes) && now - old(terminalTimes)[t] > ttl;
              && rings == old(rings) - expired
              && terminalTimes == old(terminalTimes) - expired
              && removed == |expired|
    {
      ghost var times, before := terminalTimes, rings;
      ghost var gone: set<string> := {};
      var todo := terminalTimes.Keys;
      removed := 0;
      while todo != {}
        invariant todo <= times.Keys && gone !! todo && gone <= times.Keys
        invariant forall t :: t in times && t !in todo ==> (t in gone <==> now - times[t] > ttl)
        invariant removed == |gone|
        invariant rings == before - gone
        invariant terminalTimes == times - gone
        decreases todo
      {
        var task :| task in todo;
        todo := todo - {task};
        if now - terminalTimes[task] > ttl {
          rings := rings - {task};
          terminalTimes := terminalTimes - {task};
          removed := removed + 1;
          gone := gone + {task};
        }
      }
      assert gone == set t | t in times && now - times[t] > ttl;
    }
  }
}
