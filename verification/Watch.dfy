/** The live-watch path: ring append then broadcast, bounded subscriber channels, and a watcher that
    subscribes, catches up from the ring and then tails its channel while dropping duplicates
    (internal/events/ringsink.go, internal/events/ssehub.go, internal/cpapi/handler_watch.go). */
module Watch {
  import opened EventTypes
  import opened Ring

  const DEFAULT_SUBSCRIBER_BUFFER := 64

  /** A non-blocking send on a bounded channel: dropped when the channel is full. */
  function Offer(queue: seq<Event>, cap: nat, e: Event): seq<Event> {
    if |queue| < cap then queue + [e] else queue
  }

  /** Every subscribed channel is open, and no channel is subscribed both to a task and globally. */
  ghost predicate Consistent(taskSubs: map<string, set<nat>>, globalSubs: set<nat>, open: set<nat>) {
    && globalSubs <= open
    && forall t :: t in taskSubs ==> taskSubs[t] <= open && taskSubs[t] !! globalSubs
  }

  ghost function SubscribersIn(taskSubs: map<string, set<nat>>, task: string): set<nat> {
    if task in taskSubs then taskSubs[task] else {}
  }

  /** The subscriptions after the channel was removed under one name. */
  ghost predicate Removed(ts: map<string, set<nat>>, gs: set<nat>, ts': map<string, set<nat>>, gs': set<nat>,
                          task: string, ch: nat)
  {
    && gs' == (if task == "" then gs - {ch} else gs)
    && ts'.Keys <= ts.Keys
    && forall t :: SubscribersIn(ts', t) ==
         if t == task && task != "" then SubscribersIn(ts, t) - {ch} else SubscribersIn(ts, t)
  }

  /** Closing the channel then keeps the subscriptions consistent exactly when none of them names it. */
  lemma AfterClose(ts: map<string, set<nat>>, gs: set<nat>, ts': map<string, set<nat>>, gs': set<nat>,
                   task: string, open: set<nat>, ch: nat)
    requires Consistent(ts, gs, open) && Removed(ts, gs, ts', gs', task, ch)
    ensures Consistent(ts', gs', open - {ch}) <==> forall t :: ch !in SubscribersIn(ts', t) + gs'
  {
    assert forall t :: t in ts' ==> ts'[t] == SubscribersIn(ts', t) && SubscribersIn(ts', t) <= SubscribersIn(ts, t);
    if forall t :: ch !in SubscribersIn(ts', t) + gs' {
      assert ch !in SubscribersIn(ts', "") + gs';
      forall t | t in ts' ensures ts'[t] <= open - {ch} && ts'[t] !! gs' {
        assert ch !in SubscribersIn(ts', t) + gs';
      }
    }
  }

  lemma OthersReceive(ts: map<string, set<nat>>, gs: set<nat>, ts': map<string, set<nat>>, gs': set<nat>,
                      task: string, ch: nat, t: string)
    requires Removed(ts, gs, ts', gs', task, ch) && ch !in SubscribersIn(ts', t) + gs'
    ensures SubscribersIn(ts', t) + gs' == SubscribersIn(ts, t) + gs - {ch}
  {
  }

  /** Channels are numbered; `queues` holds what each open channel buffers. */
  class SSEHub {
    var taskSubs: map<string, set<nat>>
    var globalSubs: set<nat>
    var queues: map<nat, seq<Event>>
    var nextChannel: nat
    const bufSize: nat

    ghost function Subscribers(task: string): set<nat>
      reads this
    {
      SubscribersIn(taskSubs, task)
    }

    ghost function Receivers(task: string): set<nat>
      reads this
    {
      Subscribers(task) + globalSubs
    }

    ghost predicate Valid()
      reads this
    {
      Consistent(taskSubs, globalSubs, queues.Keys) && forall c :: c in queues ==> c < nextChannel
    }

    constructor (size: int)
      ensures Valid() && queues == map[] && taskSubs == map[] && globalSubs == {}
      ensures bufSize == if size <= 0 then 64 else size
    {
      bufSize := if size <= 0 then DEFAULT_SUBSCRIBER_BUFFER else size;
      taskSubs, globalSubs, queues, nextChannel := map[], {}, map[], 0;
    }

    method Subscribe(task: string) returns (ch: nat)
      requires Valid()
      modifies this
      ensures Valid() && ch !in old(queues) && queues == old(queues)[ch := []]
      ensures forall t :: Receivers(t) == old(Receivers(t)) + if task == "" || t == task then {ch} else {}
    {
      ch := nextChannel;
      nextChannel := nextChannel + 1;
      queues := queues[ch := []];
      if task == "" {
        globalSubs := globalSubs + {ch};
      } else {
        var subs := if task in taskSubs then taskSubs[task] else {};
        taskSubs := taskSubs[task := subs + {ch}];
      }
    }

    /** Closes the channel and removes it from the subscribers of the name it is given, and of no other
        name. The hub stays valid exactly when the channel was subscribed under no other name. */
    method Unsubscribe(task: string, ch: nat)
      requires Valid() && ch in queues
      modifies this
      ensures queues == old(queues) - {ch}
      ensures globalSubs == if task == "" then old(globalSubs) - {ch} else old(globalSubs)
      ensures forall t :: Subscribers(t) ==
                if t == task && task != "" then old(Subscribers(t)) - {ch} else old(Subscribers(t))
      ensures Valid() <==> forall t :: ch !in Receivers(t)
      ensures Valid() ==> forall t :: Receivers(t) == old(Receivers(t)) - {ch}
    {
      if task == "" {
        globalSubs := globalSubs - {ch};
      } else if task in taskSubs {
        var subs := taskSubs[task] - {ch};
        taskSubs := if subs == {} then taskSubs - {task} else taskSubs[task := subs];
      }
      queues := queues - {ch};
      AfterClose(old(taskSubs), old(globalSubs), taskSubs, globalSubs, task, old(queues).Keys, ch);
      assert forall t :: Receivers(t) == SubscribersIn(taskSubs, t) + globalSubs;
      assert Valid() <==> forall t :: ch !in SubscribersIn(taskSubs, t) + globalSubs;
      if Valid() {
        forall t ensures Receivers(t) == old(Receivers(t)) - {ch} {
          OthersReceive(old(taskSubs), old(globalSubs), taskSubs, globalSubs, task, ch, t);
        }
      }
    }

    /** Offers the event once to each channel of `subs`. */
    method SendAll(subs: set<nat>, e: Event)
      requires subs <= queues.Keys
      modifies this`queues
      ensures queues.Keys == old(queues.Keys)
      ensures forall c :: c in queues ==>
        queues[c] == if c in subs then Offer(old(queues)[c], bufSize, e) else old(queues)[c]
    {
      var todo := subs;
      while todo != {}
        invariant todo <= subs && queues.Keys == old(queues.Keys)
        invariant forall c :: c in queues ==>
          queues[c] == if c in subs && c !in todo then Offer(old(queues)[c], bufSize, e) else old(queues)[c]
        decreases todo
      {
        var c :| c in todo;
        queues := queues[c := Offer(queues[c], bufSize, e)];
        todo := todo - {c};
      }
    }

    /** Every channel watching the task, and every global one, is offered the event exactly once. */
    method Broadcast(task: string, e: Event)
      requires Valid()
      modifies this`queues
      ensures Valid() && queues.Keys == old(queues.Keys)
      ensures forall c :: c in queues ==>
        queues[c] == if c in Receivers(task) then Offer(old(queues)[c], bufSize, e) else old(queues)[c]
    {
      if task in taskSubs {
        SendAll(taskSubs[task], e);
      }
      SendAll(globalSubs, e);
    }
  }

  /** The ring-buffer sink: append to the task's ring, note a terminal action, then broadcast. */
  method Handle(store: EventStore, hub: SSEHub, e: Event)
    requires hub.Valid()
    modifies store, hub`queues
    ensures hub.Valid() && hub.queues.Keys == old(hub.queues.Keys)
    ensures store.rings == if e.task == "" then old(store.rings)
      else old(store.rings)[e.task := LastN(HeldFor(old(store.rings), e.task) + [e], store.ringSize)]
    ensures store.terminalTimes ==
      if e.task != "" && (|| e.action == "lifecycle.completed" || e.action == "lifecycle.failed"
                          || e.action == "lifecycle.stopped")
      then old(store.terminalTimes)[e.task := e.time] else old(store.terminalTimes)
    ensures forall c :: c in hub.queues ==>
      hub.queues[c] ==
        if e.task != "" && c in hub.Receivers(e.task) then Offer(old(hub.queues)[c], hub.bufSize, e)
        else old(hub.queues)[c]
  {
    if e.task == "" {
      return;
    }
    store.Append(e.task, e);
    if IsTerminalAction(e.action) {
      store.MarkTerminal(e.task, e.time);
    }
    hub.Broadcast(e.task, e);
  }

  function Ids(s: seq<Event>): set<string> {
    set i | 0 <= i < |s| :: s[i].id
  }

  /** What the watcher has in hand: ids already written during catch-up, and its output. */
  datatype Session = Session(seen: set<string>, out: seq<Event>)

  function WriteCaughtUp(w: Session, e: Event): Session {
    Session(w.seen + {e.id}, w.out + [e])
  }

  /** One receive of the live tail: skip a duplicate, otherwise drop the dedup set and write. */
  function Receive(w: Session, e: Event): Session {
    if e.id in w.seen then w else Session({}, w.out + [e])
  }

  /** The watch handler's local variables and its response stream. */
  class WatchHandler {
    var seenIds: set<string>
    var out: seq<Event>

    constructor ()
      ensures seenIds == {} && out == []
    {
      seenIds, out := {}, [];
    }

    method CatchUp(catchUp: seq<Event>)
      modifies this
      ensures seenIds == old(seenIds) + Ids(catchUp) && out == old(out) + catchUp
    {
      for i := 0 to |catchUp|
        invariant out == old(out) + catchUp[..i]
        invariant seenIds == old(seenIds) + Ids(catchUp[..i])
      {
        ghost var k := catchUp[..i + 1];
        assert k[..i] == catchUp[..i] && k[i] == catchUp[i];
        assert k == catchUp[..i] + [catchUp[i]];
        IdsAppend(catchUp[..i], catchUp[i]);
        seenIds := seenIds + {catchUp[i].id};
        out := out + [catchUp[i]];
      }
      assert catchUp[..|catchUp|] == catchUp;
    }

    method OnEvent(e: Event)
      modifies this
      ensures Session(seenIds, out) == Receive(Session(old(seenIds), old(out)), e)
    {
      if e.id in seenIds {
        return;
      }
      if |seenIds| > 0 {
        seenIds := {};
      }
      out := out + [e];
    }
  }

  lemma IdsAppend(s: seq<Event>, e: Event)
    ensures Ids(s + [e]) == Ids(s) + {e.id}
  {
    var t := s + [e];
    forall x | x in Ids(s) + {e.id} ensures x in Ids(t) {
      if x == e.id {
        assert t[|s|].id == x;
      } else {
        var i :| 0 <= i < |s| && s[i].id == x;
        assert t[i].id == x;
      }
    }
  }
}
