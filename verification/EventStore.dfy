/**
 Interruption events and the mutex-guarded store that holds them
 (pkg/monitor/types.go, pkg/interruptioneventstore/interruption-event-store.go).

 `StoreState` and the functions on it say what each critical section of the store does.
 They are generic in the identity `O` of an event object: the class `Store` uses real
 object references, the pipeline of goroutines uses numbers.
 */
module InterruptionEvents {
  import opened Wrappers

  datatype Kind =
    | SpotItn | ScheduledEvent | RebalanceRecommendation | StateChange
    | AsgLifecycle | AsgLaunch | SqsTerminate

  /** An event object: `receipt` names the queue receipt it was built from, if any. */
  datatype Event = Event(
    eventId: string, kind: Kind, node: string, startTime: int, receipt: Option<nat>,
    inProgress: bool, nodeProcessed: bool)
}

module EventStoreSpec {
  import opened InterruptionEvents

  const CLEANING_PERIOD: nat := 7200

  datatype StoreState<O> = StoreState(
    table: map<string, O>,
    heap: map<O, Event>,
    ignored: set<string>,
    atLeastOne: bool,
    callsSinceLastClean: nat)

  /** Every entry points at a live object that carries the entry's own ID. */
  ghost predicate WellFormed<O>(s: StoreState<O>) {
    forall id | id in s.table :: s.table[id] in s.heap && s.heap[s.table[id]].eventId == id
  }

  /** Both TimeUntilDrain(e) <= 0 and the flags of shouldEventDrain. */
  predicate Drainable(e: Event, ignored: set<string>, now: int, grace: int) {
    && e.eventId !in ignored
    && !e.inProgress
    && !e.nodeProcessed
    && e.startTime - grace - now <= 0
  }

  ghost function DrainableIds<O>(s: StoreState<O>, now: int, grace: int): set<string>
    requires WellFormed(s)
  {
    set id | id in s.table && Drainable(s.heap[s.table[id]], s.ignored, now, grace)
  }

  function Insert<O(==)>(s: StoreState<O>, o: O, e: Event): StoreState<O> {
    s.(table := s.table[e.eventId := o],
       heap := s.heap[o := e],
       atLeastOne := s.atLeastOne || e.eventId !in s.ignored)
  }

  /** AddInterruptionEvent with nobody in between its two halves: the first event of an ID wins. */
  function Add<O(==)>(s: StoreState<O>, o: O, e: Event): StoreState<O> {
    if e.eventId in s.table then s else Insert(s, o, e)
  }

  function Cancel<O(==)>(s: StoreState<O>, id: string): StoreState<O> {
    s.(table := map k | k in s.table && k != id :: s.table[k])
  }

  function Ignore<O(==)>(s: StoreState<O>, id: string): StoreState<O> {
    if id == "" then s else s.(ignored := s.ignored + {id})
  }

  function MarkNode<O(==)>(s: StoreState<O>, node: string): StoreState<O> {
    s.(heap := map o | o in s.heap ::
                 if o in s.table.Values && s.heap[o].node == node
                 then s.heap[o].(nodeProcessed := true) else s.heap[o])
  }

  function Start<O(==)>(s: StoreState<O>, o: O): StoreState<O>
    requires o in s.heap
  {
    s.(heap := s.heap[o := s.heap[o].(inProgress := true)])
  }

  /** The 7200th call sweeps out the processed events; the others only count. */
  function Clean<O(==)>(s: StoreState<O>): StoreState<O>
    requires forall id | id in s.table :: s.table[id] in s.heap
  {
    if s.callsSinceLastClean + 1 < CLEANING_PERIOD then
      s.(callsSinceLastClean := s.callsSinceLastClean + 1)
    else
      s.(table := map k | k in s.table && !s.heap[s.table[k]].nodeProcessed :: s.table[k],
         callsSinceLastClean := 0)
  }

  /** Some event counted, and none that counts is left for this node. */
  ghost predicate ShouldUncordon<O>(s: StoreState<O>, node: string)
    requires WellFormed(s)
  {
    && s.atLeastOne
    && forall id | id in s.table :: id in s.ignored || s.heap[s.table[id]].node != node
  }

  /**
   Adding keeps every entry there was, a second event of the same ID changes nothing until the
   first is cancelled, and cancelling takes an added entry out again and nothing else.
   */
  lemma FirstEventWins<O>(s: StoreState<O>, o: O, e: Event, p: O, f: Event)
    requires e.eventId == f.eventId
    ensures forall id | id in s.table :: id in Add(s, o, e).table && Add(s, o, e).table[id] == s.table[id]
    ensures Add(Add(s, o, e), p, f) == Add(s, o, e)
    ensures e.eventId !in s.table ==> Cancel(Add(s, o, e), e.eventId).table == s.table
    ensures Add(Cancel(Add(s, o, e), e.eventId), p, f).table == s.table[e.eventId := p]
  {
    assert Cancel(Add(s, o, e), e.eventId).table.Keys == s.table.Keys - {e.eventId};
  }

  /** A sweep hides no work from the dispatcher and can only release a node. */
  lemma CleanKeepsDrainable<O>(s: StoreState<O>, now: int, grace: int, node: string)
    requires WellFormed(s)
    ensures WellFormed(Clean(s))
    ensures DrainableIds(Clean(s), now, grace) == DrainableIds(s, now, grace)
    ensures ShouldUncordon(s, node) ==> ShouldUncordon(Clean(s), node)
    ensures Clean(s).table.Keys <= s.table.Keys
    ensures forall id | id in s.table && id !in Clean(s).table :: s.heap[s.table[id]].nodeProcessed
  {
    var t := Clean(s);
    assert forall id | id in t.table :: id in s.table && t.table[id] == s.table[id];
    assert t.heap == s.heap && t.ignored == s.ignored && t.atLeastOne == s.atLeastOne;
    forall id | id in DrainableIds(s, now, grace) ensures id in DrainableIds(t, now, grace) {
      assert id in t.table;
    }
  }

  /** Marking a node takes exactly that node's stored events out of the dispatcher's reach. */
  lemma MarkNodeDrains<O>(s: StoreState<O>, node: string, now: int, grace: int)
    requires WellFormed(s)
    ensures WellFormed(MarkNode(s, node))
    ensures DrainableIds(MarkNode(s, node), now, grace)
         == set id | id in DrainableIds(s, now, grace) && s.heap[s.table[id]].node != node
  {
    var t := MarkNode(s, node);
    assert t.table == s.table && t.ignored == s.ignored;
    forall id | id in s.table
      ensures t.heap[t.table[id]] ==
              if s.heap[s.table[id]].node == node then s.heap[s.table[id]].(nodeProcessed := true)
              else s.heap[s.table[id]]
    {
      assert s.table[id] in s.table.Values;
    }
  }
}

/** The store as its goroutines see it: one method per critical section. */
module EventStore {
  import opened Wrappers
  import opened InterruptionEvents
  import opened EventStoreSpec

  class InterruptionEvent {
    const eventId: string
    const kind: Kind
    const node: string
    const startTime: int
    const receipt: Option<nat>
    var inProgress: bool
    var nodeProcessed: bool

    constructor (e: Event)
      ensures Rec() == e
    {
      eventId, kind, node, startTime, receipt := e.eventId, e.kind, e.node, e.startTime, e.receipt;
      inProgress, nodeProcessed := e.inProgress, e.nodeProcessed;
    }

    function Rec(): Event
      reads this
    {
      Event(eventId, kind, node, startTime, receipt, inProgress, nodeProcessed)
    }
  }

  class Store {
    const gracePeriod: int
    var events: map<string, InterruptionEvent>
    var ignoredEvents: set<string>
    var atLeastOneEvent: bool
    var callsSinceLastClean: nat
    ghost var known: set<InterruptionEvent>  // every object ever added

    ghost predicate Valid()
      reads this
    {
      forall id | id in events :: events[id] in known && events[id].eventId == id
    }

    ghost function View(): (s: StoreState<InterruptionEvent>)
      reads this, known
    {
      StoreState(events, map e | e in known :: e.Rec(), ignoredEvents, atLeastOneEvent,
                 callsSinceLastClean)
    }

    constructor (gracePeriod: int)
      ensures Valid() && this.gracePeriod == gracePeriod
      ensures View() == StoreState(map[], map[], {}, false, 0)
    {
      this.gracePeriod := gracePeriod;
      events, ignoredEvents, atLeastOneEvent := map[], {}, false;
      callsSinceLastClean, known := 0, {};
    }

    method CancelInterruptionEvent(eventId: string)
      requires Valid()
      modifies this
      ensures Valid() && View() == Cancel(old(View()), eventId)
    {
      events := map k | k in events && k != eventId :: events[k];
    }

    /** The read-locked half of AddInterruptionEvent. */
    method IsStored(e: InterruptionEvent) returns (stored: bool)
      ensures stored == (e.eventId in View().table)
    {
      stored := e.eventId in events;
    }

    /** The write-locked half: it does not look again. */
    method InsertEvent(e: InterruptionEvent)
      requires Valid()
      modifies this
      ensures Valid() && View() == Insert(old(View()), e, e.Rec())
    {
      events := events[e.eventId := e];
      known := known + {e};
      if e.eventId !in ignoredEvents {
        atLeastOneEvent := true;
      }
    }

    /** Both halves, with no other goroutine in between. */
    method AddInterruptionEvent(e: InterruptionEvent)
      requires Valid()
      modifies this
      ensures Valid() && View() == Add(old(View()), e, e.Rec())
    {
      var stored := IsStored(e);
      if stored {
        return;
      }
      InsertEvent(e);
    }

    method IgnoreEvent(eventId: string)
      requires Valid()
      modifies this
      ensures Valid() && View() == Ignore(old(View()), eventId)
    {
      if eventId == "" {
        return;
      }
      ignoredEvents := ignoredEvents + {eventId};
    }

    /** The loop of MarkAllAsProcessed. */
    method MarkStored(nodeName: string)
      requires Valid()
      modifies events.Values`nodeProcessed
      ensures forall id | id in events ::
        events[id].nodeProcessed == (old(events[id].nodeProcessed) || events[id].node == nodeName)
    {
      var rest := events.Keys;
      while rest != {}
        invariant rest <= events.Keys
        invariant forall id | id in events ::
          events[id].nodeProcessed == (old(events[id].nodeProcessed) || (id !in rest && events[id].node == nodeName))
        decreases |rest|
      {
        var id :| id in rest;
        var e := events[id];
        if e.node == nodeName {
          e.nodeProcessed := true;
        }
        rest := rest - {id};
      }
    }

    method MarkAllAsProcessed(nodeName: string)
      requires Valid()
      modifies events.Values`nodeProcessed
      ensures Valid() && View() == MarkNode(old(View()), nodeName)
    {
      MarkStored(nodeName);
      forall e | e in known
        ensures e.nodeProcessed == (old(e.nodeProcessed) || (e in events.Values && e.node == nodeName))
      {
        if e in events.Values {
          var id :| id in events && events[id] == e;
        }
      }
      assert View().heap == MarkNode(old(View()), nodeName).heap;
    }

    method CleanPeriodically()
      requires Valid()
      modifies this
      ensures Valid() && View() == Clean(old(View()))
    {
      callsSinceLastClean := callsSinceLastClean + 1;
      if callsSinceLastClean < CLEANING_PERIOD {
        return;
      }
      var toDelete: set<string>, rest := {}, events.Keys;
      while rest != {}
        invariant rest <= events.Keys
        invariant forall id | id in events :: id in toDelete <==> id !in rest && events[id].nodeProcessed
        decreases |rest|
      {
        var id :| id in rest;
        if events[id].nodeProcessed {
          toDelete := toDelete + {events[id].eventId};
        }
        rest := rest - {id};
      }
      ghost var swept := Clean(old(View())).table;
      assert forall id | id in events :: id in swept <==> !events[id].nodeProcessed;
      events := events - toDelete;
      assert events == swept;
      callsSinceLastClean := 0;
    }

    /** Scans in map order, so any drainable event may come back. */
    method FirstDrainable(now: int) returns (found: Option<InterruptionEvent>)
      requires Valid()
      ensures found.Some? ==> found.value.eventId in DrainableIds(View(), now, gracePeriod)
      ensures found.Some? ==> events[found.value.eventId] == found.value
      ensures found.None? ==> DrainableIds(View(), now, gracePeriod) == {}
    {
      var rest := events.Keys;
      while rest != {}
        invariant rest <= events.Keys
        invariant DrainableIds(View(), now, gracePeriod) <= rest
        decreases |rest|
      {
        var id :| id in rest;
        if Drainable(events[id].Rec(), ignoredEvents, now, gracePeriod) {
          return Some(events[id]);
        }
        rest := rest - {id};
      }
      found := None;
    }

    /** An event comes back exactly when one was drainable before the sweep. */
    method GetActiveEvent(now: int) returns (found: Option<InterruptionEvent>)
      requires Valid()
      modifies this
      ensures Valid() && View() == Clean(old(View()))
      ensures found.Some? <==> DrainableIds(old(View()), now, gracePeriod) != {}
      ensures found.Some? ==> found.value.eventId in DrainableIds(old(View()), now, gracePeriod)
      ensures found.Some? ==> found.value.eventId in events && events[found.value.eventId] == found.value
    {
      ghost var s := View();
      CleanKeepsDrainable(s, now, gracePeriod, "");
      CleanPeriodically();
      found := FirstDrainable(now);
    }

    method ShouldUncordonNode(nodeName: string) returns (yes: bool)
      requires Valid()
      ensures yes == ShouldUncordon(View(), nodeName)
    {
      if !atLeastOneEvent {
        return false;
      }
      if |events| == 0 {
        return true;
      }
      var rest := events.Keys;
      while rest != {}
        invariant rest <= events.Keys
        invariant forall id | id in events && id !in rest :: id in ignoredEvents || events[id].node != nodeName
        decreases |rest|
      {
        var id :| id in rest;
        if id !in ignoredEvents && events[id].node == nodeName {
          return false;
        }
        rest := rest - {id};
      }
      yes := true;
    }
  }
}
