/**
 Dispatch: every event object is started at most once, an event ID is started again only
 after it left the store, and worker slots are exactly the handlers in flight.
 */
module PipelineDispatch {
  import opened InterruptionEvents
  import opened EventStoreSpec
  import opened Pipeline

  ghost predicate WasPicked(ls: seq<Label>, o: nat) {
    exists k :: 0 <= k < |ls| && ls[k].Pick? && ls[k].o == o
  }

  predicate Holds(d: DispatcherPc, o: nat) { d == Picked(o) || d == Slotted(o) || d == Started(o) }

  /** The adder's object is not shared yet, and its ID stays free until it is inserted. */
  ghost predicate AdderOwns(s: State) {
    !s.adder.AdderIdle? ==>
      var o := s.adder.o;
      && o in s.store.heap && !s.store.heap[o].inProgress
      && (forall id | id in s.store.table :: s.store.table[id] != o)
      && !Holds(s.dispatcher, o)
      && (s.adder.Checked? ==> s.store.heap[o].eventId !in s.store.table)
  }

  /** The dispatcher's object is live and was never started before. */
  ghost predicate DispatcherOwns(s: State) {
    s.dispatcher.DispatcherIdle? || s.dispatcher.Scanning? ||
    var o := s.dispatcher.o;
    o in s.store.heap && o !in s.handlers && s.store.heap[o].inProgress == s.dispatcher.Started?
  }

  ghost predicate HandlersOwn(s: State) {
    forall o | o in s.handlers :: o in s.store.heap && s.store.heap[o].inProgress
  }

  ghost predicate Owned(s: State) { AdderOwns(s) && DispatcherOwns(s) && HandlersOwn(s) }

  /** An object keeps its identity; only its own start sets inProgress; processed stays set. */
  ghost predicate Follows(e: Event, f: Event, started: bool) {
    && f == e.(inProgress := e.inProgress || started, nodeProcessed := f.nodeProcessed)
    && (e.nodeProcessed ==> f.nodeProcessed)
  }

  lemma StepHeap(cfg: Config, s: State, l: Label)
    requires Enabled(cfg, s, l)
    ensures var t := Apply(cfg, s, l);
      && (forall o | o in s.store.heap ::
            o in t.store.heap && Follows(s.store.heap[o], t.store.heap[o], l == SetInProgress(o)))
      && (forall o | o in t.store.heap && o !in s.store.heap ::
            o == s.nextObject && t.adder == Received(o) && !t.store.heap[o].inProgress)
  {
  }

  /** Entries come from the adder alone. */
  lemma StepTable(cfg: Config, s: State, l: Label)
    requires Enabled(cfg, s, l)
    ensures var t := Apply(cfg, s, l);
      forall id | id in t.store.table ::
        || (id in s.store.table && t.store.table[id] == s.store.table[id])
        || (l.AddInsert? && t.store.table[id] == l.o && id == s.store.heap[l.o].eventId)
  {
  }

  ghost predicate Recorded(ls: seq<Label>, s: State) {
    && (forall o :: SetInProgress(o) in ls <==> o in s.store.heap && s.store.heap[o].inProgress)
    && (forall o | Spawn(o) in ls :: SetInProgress(o) in ls && s.dispatcher != Started(o))
    && (forall o | Holds(s.dispatcher, o) || SetInProgress(o) in ls :: WasPicked(ls, o))
  }

  ghost predicate SlotsMatch(cfg: Config, s: State) {
    && s.slots == |s.handlers| + (if s.dispatcher.Slotted? || s.dispatcher.Started? then 1 else 0)
    && s.slots <= cfg.workers
  }

  lemma StepKeepsAdder(cfg: Config, s: State, l: Label)
    requires Owned(s) && Enabled(cfg, s, l)
    ensures AdderOwns(Apply(cfg, s, l))
  {
    StepHeap(cfg, s, l);
    StepTable(cfg, s, l);
  }

  lemma StepKeepsDispatcher(cfg: Config, s: State, l: Label)
    requires Owned(s) && Enabled(cfg, s, l)
    ensures DispatcherOwns(Apply(cfg, s, l))
  {
    StepHeap(cfg, s, l);
  }

  lemma StepKeepsHandlers(cfg: Config, s: State, l: Label)
    requires Owned(s) && Enabled(cfg, s, l)
    ensures HandlersOwn(Apply(cfg, s, l))
  {
    StepHeap(cfg, s, l);
  }

  /** Only these four steps touch slots, handlers or the dispatcher's claim on a slot. */
  predicate MovesSlot(l: Label) { l.TakeSlot? || l.SetInProgress? || l.Spawn? || l.Act? }

  lemma OthersLeaveSlots(cfg: Config, s: State, l: Label)
    requires SlotsMatch(cfg, s) && Enabled(cfg, s, l) && !MovesSlot(l)
    ensures SlotsMatch(cfg, Apply(cfg, s, l))
  {
  }

  lemma StepKeepsSlots(cfg: Config, s: State, l: Label)
    requires DispatcherOwns(s) && SlotsMatch(cfg, s) && Enabled(cfg, s, l)
    ensures SlotsMatch(cfg, Apply(cfg, s, l))
  {
    if !MovesSlot(l) {
      OthersLeaveSlots(cfg, s, l);
    }
  }

  lemma StepKeepsRecorded(cfg: Config, ls: seq<Label>, s: State, l: Label)
    requires Owned(s) && Recorded(ls, s) && Enabled(cfg, s, l)
    ensures Recorded(ls + [l], Apply(cfg, s, l))
  {
    StepHeap(cfg, s, l);
    var t := Apply(cfg, s, l);
    forall o | Holds(t.dispatcher, o) || SetInProgress(o) in ls + [l] ensures WasPicked(ls + [l], o) {
      if l.Pick? && l.o == o {
        assert (ls + [l])[|ls|] == l;
      } else {
        assert WasPicked(ls, o);
        var k :| 0 <= k < |ls| && ls[k].Pick? && ls[k].o == o;
        assert (ls + [l])[k] == ls[k];
      }
    }
  }

  ghost predicate Invariant(cfg: Config, ls: seq<Label>, s: State) {
    Owned(s) && SlotsMatch(cfg, s) && Recorded(ls, s)
  }

  lemma StepKeepsInvariant(cfg: Config, ls: seq<Label>, s: State, l: Label)
    requires Invariant(cfg, ls, s) && Enabled(cfg, s, l)
    ensures Invariant(cfg, ls + [l], Apply(cfg, s, l))
  {
    StepKeepsAdder(cfg, s, l);
    StepKeepsDispatcher(cfg, s, l);
    StepKeepsHandlers(cfg, s, l);
    StepKeepsSlots(cfg, s, l);
    StepKeepsRecorded(cfg, ls, s, l);
  }

  lemma {:induction false} RunInvariant(cfg: Config, ls: seq<Label>)
    requires Run(cfg, ls)
    ensures Invariant(cfg, ls, After(cfg, ls))
    decreases |ls|
  {
    if ls != [] {
      var n := |ls| - 1;
      RunPrefix(cfg, ls, n);
      RunInvariant(cfg, ls[..n]);
      StepKeepsInvariant(cfg, ls[..n], After(cfg, ls[..n]), ls[n]);
      assert ls[..n] + [ls[n]] == ls && ls[..n + 1] == ls;
    }
  }

  // ---- at most once

  lemma NoSecondSpawn(cfg: Config, ls: seq<Label>, o: nat)
    requires Run(cfg, ls) && Spawn(o) in ls
    ensures After(cfg, ls).dispatcher != Started(o)
  {
    RunInvariant(cfg, ls);
  }

  /** In every run an event object is dispatched at most once. */
  lemma DispatchedOnce(cfg: Config, ls: seq<Label>, i: nat, j: nat, o: nat)
    requires Run(cfg, ls) && i <= j < |ls|
    requires ls[i] == Spawn(o) == ls[j]
    ensures i == j
  {
    EnabledAt(cfg, ls, j);
    assert i < j ==> ls[..j][i] == Spawn(o);
    if Spawn(o) in ls[..j] {
      NoSecondSpawn(cfg, ls[..j], o);
    }
  }

  // ---- an ID comes back only through a removal

  ghost predicate Stored(cfg: Config, ls: seq<Label>, k: nat, id: string, o: nat) {
    && k <= |ls| && Run(cfg, ls[..k])
    && id in After(cfg, ls[..k]).store.table && After(cfg, ls[..k]).store.table[id] == o
  }

  ghost predicate Absent(cfg: Config, ls: seq<Label>, k: nat, id: string) {
    k <= |ls| && Run(cfg, ls[..k]) && id !in After(cfg, ls[..k]).store.table
  }

  /** Step k takes the entry out of the store. */
  ghost predicate RemovedAt(cfg: Config, ls: seq<Label>, k: nat, id: string, o: nat) {
    Stored(cfg, ls, k, id, o) && Absent(cfg, ls, k + 1, id)
  }

  /** One step leaves an entry alone or removes it: nothing overwrites it. */
  lemma EntryStep(cfg: Config, ls: seq<Label>, k: nat, id: string, o: nat)
    requires Run(cfg, ls) && k < |ls| && Stored(cfg, ls, k, id, o)
    ensures Stored(cfg, ls, k + 1, id, o) || Absent(cfg, ls, k + 1, id)
  {
    RunPrefix(cfg, ls, k);
    RunInvariant(cfg, ls[..k]);
    StepTable(cfg, After(cfg, ls[..k]), ls[k]);
  }

  /** The steps that take an entry out: the watcher, a sweep of a processed event, a failed handler. */
  ghost predicate Removes(s: State, l: Label, id: string) {
    || l == WatcherCancel(id)
    || (l.Sweep? && s.store.callsSinceLastClean + 1 >= CLEANING_PERIOD
        && id in s.store.table && s.store.heap[s.store.table[id]].nodeProcessed)
    || (l.Act? && (l.action.RemoveLaunch? || l.action.RemoveFailed?)
        && l.o in s.store.heap && s.store.heap[l.o].eventId == id)
  }

  lemma ActRemoves(cfg: Config, s: State, o: nat, a: Action, id: string)
    requires Enabled(cfg, s, Act(o, a)) && id in s.store.table
    ensures id !in Apply(cfg, s, Act(o, a)).store.table <==> Removes(s, Act(o, a), id)
  {
  }

  lemma StoreStepRemoves(cfg: Config, s: State, l: Label, id: string)
    requires Enabled(cfg, s, l) && id in s.store.table && (l.Sweep? || l.WatcherCancel? || l.AddInsert?)
    ensures id !in Apply(cfg, s, l).store.table <==> Removes(s, l, id)
  {
  }

  /** An entry disappears exactly by one of those steps. */
  lemma RemovedExactlyBy(cfg: Config, s: State, l: Label, id: string)
    requires Enabled(cfg, s, l) && id in s.store.table
    ensures id !in Apply(cfg, s, l).store.table <==> Removes(s, l, id)
  {
    if l.Act? {
      ActRemoves(cfg, s, l.o, l.action, id);
    } else if l.Sweep? || l.WatcherCancel? || l.AddInsert? {
      StoreStepRemoves(cfg, s, l, id);
    }
  }

  lemma {:induction false} EntryStaysUnlessRemoved(cfg: Config, ls: seq<Label>, i: nat, j: nat, id: string, o: nat)
    requires Run(cfg, ls) && i <= j <= |ls| && Stored(cfg, ls, i, id, o)
    ensures Stored(cfg, ls, j, id, o) || exists k :: i <= k < j && RemovedAt(cfg, ls, k, id, o)
    decreases j - i
  {
    if i < j {
      EntryStep(cfg, ls, i, id, o);
      if Stored(cfg, ls, i + 1, id, o) {
        EntryStaysUnlessRemoved(cfg, ls, i + 1, j, id, o);
      } else {
        assert RemovedAt(cfg, ls, i, id, o);
      }
    }
  }

  lemma PickIsStored(cfg: Config, ls: seq<Label>, i: nat) returns (id: string)
    requires Run(cfg, ls) && i < |ls| && ls[i].Pick?
    ensures Run(cfg, ls[..i])
    ensures Stored(cfg, ls, i, id, ls[i].o)
    ensures ls[i].o in After(cfg, ls[..i]).store.heap && After(cfg, ls[..i]).store.heap[ls[i].o].eventId == id
  {
    EnabledAt(cfg, ls, i);
    var s := After(cfg, ls[..i]);
    id :| id in DrainableIds(s.store, ls[i].now, cfg.gracePeriod) && s.store.table[id] == ls[i].o;
  }

  /** Two picks of one ID that yield different objects have a removal of that ID between them. */
  lemma RepickNeedsRemoval(cfg: Config, ls: seq<Label>, i: nat, j: nat, id: string)
    requires Run(cfg, ls) && i < j < |ls| && ls[i].Pick? && ls[j].Pick? && ls[i].o != ls[j].o
    requires Stored(cfg, ls, i, id, ls[i].o) && Stored(cfg, ls, j, id, ls[j].o)
    ensures exists k :: i <= k < j && RemovedAt(cfg, ls, k, id, ls[i].o)
  {
    EntryStaysUnlessRemoved(cfg, ls, i, j, id, ls[i].o);
  }

  /** Pick i is the dispatcher's last step of its kind: no pick and no dispatch has come after it. */
  ghost predicate LastPick(ls: seq<Label>, i: nat, o: nat) {
    && i < |ls| && ls[i].Pick? && ls[i].o == o
    && forall k | i < k < |ls| :: !ls[k].Pick? && !ls[k].Spawn?
  }

  lemma StepKeepsLastPick(cfg: Config, ls: seq<Label>, s: State, l: Label, o: nat)
    requires Enabled(cfg, s, l) && Holds(Apply(cfg, s, l).dispatcher, o)
    requires Holds(s.dispatcher, o) ==> exists i :: LastPick(ls, i, o)
    ensures exists i :: LastPick(ls + [l], i, o)
  {
    if l.Pick? {
      assert LastPick(ls + [l], |ls|, o);
    } else {
      var i :| LastPick(ls, i, o);
      assert LastPick(ls + [l], i, o);
    }
  }

  /** What the dispatcher holds it got from its last pick. */
  lemma {:induction false} HeldWasPicked(cfg: Config, ls: seq<Label>, o: nat)
    requires Run(cfg, ls) && Holds(After(cfg, ls).dispatcher, o)
    ensures exists i :: LastPick(ls, i, o)
    decreases |ls|
  {
    var n := |ls| - 1;
    RunPrefix(cfg, ls, n);
    if Holds(After(cfg, ls[..n]).dispatcher, o) {
      HeldWasPicked(cfg, ls[..n], o);
    }
    assert ls[..n] + [ls[n]] == ls && ls[..n + 1] == ls;
    StepKeepsLastPick(cfg, ls[..n], After(cfg, ls[..n]), ls[n], o);
  }

  /** Step i is the pick that led to the dispatch at a. */
  ghost predicate LedTo(ls: seq<Label>, i: nat, a: nat) {
    && i < a < |ls| && ls[i].Pick? && ls[a].Spawn? && ls[i].o == ls[a].o
    && forall k | i < k < a :: !ls[k].Pick? && !ls[k].Spawn?
  }

  lemma SpawnWasPicked(cfg: Config, ls: seq<Label>, a: nat) returns (i: nat)
    requires Run(cfg, ls) && a < |ls| && ls[a].Spawn?
    ensures LedTo(ls, i, a)
  {
    EnabledAt(cfg, ls, a);
    HeldWasPicked(cfg, ls[..a], ls[a].o);
    i :| LastPick(ls[..a], i, ls[a].o);
    assert forall k | 0 <= k < a :: ls[..a][k] == ls[k];
  }

  /** The pick that led to a dispatch of `id` found the entry in the store. */
  lemma DispatchWasStored(cfg: Config, ls: seq<Label>, a: nat, id: string) returns (i: nat)
    requires Run(cfg, ls) && a < |ls| && ls[a].Spawn? && Carries(cfg, ls, ls[a].o, id)
    ensures LedTo(ls, i, a) && Stored(cfg, ls, i, id, ls[a].o)
  {
    i := SpawnWasPicked(cfg, ls, a);
    var picked := PickIsStored(cfg, ls, i);
    EventNeverChanges(cfg, ls, i, ls[i].o);
  }

  lemma PicksInOrder(ls: seq<Label>, i: nat, a: nat, j: nat, b: nat)
    requires LedTo(ls, i, a) && LedTo(ls, j, b) && a < b
    ensures a < j
  {
  }

  lemma DispatchesDiffer(cfg: Config, ls: seq<Label>, a: nat, b: nat)
    requires Run(cfg, ls) && a < b < |ls| && ls[a].Spawn? && ls[b].Spawn?
    ensures ls[a].o != ls[b].o
  {
    if ls[a].o == ls[b].o {
      DispatchedOnce(cfg, ls, a, b, ls[a].o);
    }
  }

  /**
   Two dispatches that carry the same event ID are of two objects, and between the picks that
   led to them the first object's entry was removed from the store.
   */
  lemma RedispatchNeedsRemoval(cfg: Config, ls: seq<Label>, a: nat, b: nat, id: string)
    returns (i: nat, j: nat, k: nat)
    requires Run(cfg, ls) && a < b < |ls| && ls[a].Spawn? && ls[b].Spawn?
    requires Carries(cfg, ls, ls[a].o, id) && Carries(cfg, ls, ls[b].o, id)
    ensures ls[a].o != ls[b].o
    ensures LedTo(ls, i, a) && LedTo(ls, j, b) && i < a < j < b
    ensures Stored(cfg, ls, i, id, ls[a].o) && Stored(cfg, ls, j, id, ls[b].o)
    ensures i <= k < j && RemovedAt(cfg, ls, k, id, ls[a].o)
  {
    DispatchesDiffer(cfg, ls, a, b);
    i := DispatchWasStored(cfg, ls, a, id);
    j := DispatchWasStored(cfg, ls, b, id);
    PicksInOrder(ls, i, a, j, b);
    RepickNeedsRemoval(cfg, ls, i, j, id);
    k :| i <= k < j && RemovedAt(cfg, ls, k, id, ls[a].o);
  }

  ghost predicate Carries(cfg: Config, ls: seq<Label>, o: nat, id: string)
    requires Run(cfg, ls)
  {
    o in After(cfg, ls).store.heap && After(cfg, ls).store.heap[o].eventId == id
  }

  /** What the monitor put in an object never changes, and processed stays processed. */
  lemma {:induction false} EventNeverChanges(cfg: Config, ls: seq<Label>, i: nat, o: nat)
    requires Run(cfg, ls) && i <= |ls| && Run(cfg, ls[..i]) && o in After(cfg, ls[..i]).store.heap
    ensures o in After(cfg, ls).store.heap
    ensures SameEvent(After(cfg, ls[..i]).store.heap[o], After(cfg, ls).store.heap[o])
    decreases |ls|
  {
    if i == |ls| {
      assert ls[..i] == ls;
    } else {
      var n := |ls| - 1;
      RunPrefix(cfg, ls, n);
      assert ls[..n][..i] == ls[..i] && ls[..n + 1] == ls;
      EventNeverChanges(cfg, ls[..n], i, o);
      StepHeap(cfg, After(cfg, ls[..n]), ls[n]);
    }
  }

  ghost predicate SameEvent(e: Event, f: Event) {
    && e.(inProgress := f.inProgress, nodeProcessed := f.nodeProcessed) == f
    && (e.nodeProcessed ==> f.nodeProcessed)
  }

  // ---- slots and the end of the dispatch loop

  /** Occupied slots are the handlers in flight, counting the one being spawned. */
  lemma SlotsAreHandlers(cfg: Config, ls: seq<Label>)
    requires Run(cfg, ls)
    ensures var s := After(cfg, ls);
      && |s.handlers| <= s.slots <= cfg.workers
      && (s.slots == |s.handlers| <==> !(s.dispatcher.Slotted? || s.dispatcher.Started?))
      && (forall o | o in s.handlers :: Spawn(o) in ls && Act(o, Release) !in ls)
  {
    RunInvariant(cfg, ls);
    HandlersAreSpawned(cfg, ls);
  }

  ghost predicate SpawnedFirst(ls: seq<Label>, s: State) {
    && (forall o | o in s.handlers :: Spawn(o) in ls && Act(o, Release) !in ls)
    && (forall o, a | Act(o, a) in ls :: Spawn(o) in ls)
  }

  lemma StepKeepsSpawned(cfg: Config, ls: seq<Label>, s: State, l: Label)
    requires SpawnedFirst(ls, s) && Recorded(ls, s) && Enabled(cfg, s, l)
    ensures SpawnedFirst(ls + [l], Apply(cfg, s, l))
  {
  }

  lemma {:induction false} HandlersAreSpawned(cfg: Config, ls: seq<Label>)
    requires Run(cfg, ls)
    ensures SpawnedFirst(ls, After(cfg, ls))
    decreases |ls|
  {
    if ls != [] {
      var n := |ls| - 1;
      RunPrefix(cfg, ls, n);
      HandlersAreSpawned(cfg, ls[..n]);
      RunInvariant(cfg, ls[..n]);
      StepKeepsSpawned(cfg, ls[..n], After(cfg, ls[..n]), ls[n]);
      assert ls[..n] + [ls[n]] == ls && ls[..n + 1] == ls;
    }
  }

  /** Stored events the dispatcher may still start, and the one it is about to start. */
  ghost function Pending(s: State): set<nat> {
    (set id | id in s.store.table
              && !s.store.heap[s.store.table[id]].inProgress
              && !s.store.heap[s.store.table[id]].nodeProcessed :: s.store.table[id])
    + (if s.dispatcher.Picked? || s.dispatcher.Slotted? then {s.dispatcher.o} else {})
  }

  lemma PendingStep(cfg: Config, s: State, l: Label)
    requires Owned(s) && Enabled(cfg, s, l) && !l.AddInsert?
    ensures Pending(Apply(cfg, s, l)) <= Pending(s)
    ensures l.SetInProgress? ==> l.o in Pending(s) && l.o !in Pending(Apply(cfg, s, l))
  {
    StepTable(cfg, s, l);
    StepHeap(cfg, s, l);
  }

  function Starts(ls: seq<Label>): nat {
    if ls == [] then 0 else Start1(ls[0]) + Starts(ls[1..])
  }

  /** How many starts are still due after the first k steps. */
  ghost function Due(cfg: Config, ls: seq<Label>, k: nat): nat
    requires Run(cfg, ls) && k <= |ls|
  {
    RunTo(cfg, ls, k);
    |Pending(After(cfg, ls[..k]))|
  }

  function Start1(l: Label): nat { if l.SetInProgress? then 1 else 0 }

  lemma DueFalls(cfg: Config, ls: seq<Label>, k: nat)
    requires Run(cfg, ls) && k < |ls| && !ls[k].AddInsert?
    ensures Due(cfg, ls, k + 1) + Start1(ls[k]) <= Due(cfg, ls, k)
  {
    RunPrefix(cfg, ls, k);
    RunInvariant(cfg, ls[..k]);
    PendingStep(cfg, After(cfg, ls[..k]), ls[k]);
    var before, after := Pending(After(cfg, ls[..k])), Pending(After(cfg, ls[..k + 1]));
    if ls[k].SetInProgress? {
      SubsetSize(after + {ls[k].o}, before);
    } else {
      SubsetSize(after, before);
    }
  }

  lemma {:induction false} SubsetSize(a: set<nat>, b: set<nat>)
    requires a <= b
    ensures |a| <= |b|
  {
    if a != {} {
      var x :| x in a;
      SubsetSize(a - {x}, b - {x});
    }
  }

  lemma StartsFirst(ls: seq<Label>, i: nat, j: nat)
    requires i < j <= |ls|
    ensures Starts(ls[i..j]) == Start1(ls[i]) + Starts(ls[i + 1..j])
  {
    assert ls[i..j][0] == ls[i] && ls[i..j][1..] == ls[i + 1..j];
  }

  /**
   While nothing new is inserted the dispatch loop comes to an end: it starts at most the
   events that were pending, whatever the other goroutines do.
   */
  lemma {:induction false} StartsBoundedByPending(cfg: Config, ls: seq<Label>, i: nat, j: nat)
    requires Run(cfg, ls) && i <= j <= |ls|
    requires forall k | i <= k < j :: !ls[k].AddInsert?
    ensures Starts(ls[i..j]) + Due(cfg, ls, j) <= Due(cfg, ls, i)
    decreases j - i
  {
    if i < j {
      DueFalls(cfg, ls, i);
      StartsBoundedByPending(cfg, ls, i + 1, j);
      StartsFirst(ls, i, j);
    }
  }

  // ---- a drained node

  /** Object o was stored for the node that step i, a handler's MarkProcessed, marks. */
  ghost predicate MarkedAt(cfg: Config, ls: seq<Label>, i: nat, o: nat) {
    && i < |ls| && Run(cfg, ls[..i]) && ls[i].Act? && ls[i].action.MarkProcessed?
    && var s := After(cfg, ls[..i]);
       && ls[i].o in s.handlers && s.handlers[ls[i].o].Marking?
       && o in s.store.heap && s.store.heap[o].node == s.handlers[ls[i].o].node
       && exists id :: id in s.store.table && s.store.table[id] == o
  }

  lemma MarkSetsProcessed(cfg: Config, ls: seq<Label>, i: nat, o: nat)
    requires Run(cfg, ls) && MarkedAt(cfg, ls, i, o)
    ensures Run(cfg, ls[..i + 1])
    ensures o in After(cfg, ls[..i + 1]).store.heap && After(cfg, ls[..i + 1]).store.heap[o].nodeProcessed
  {
    RunPrefix(cfg, ls, i);
    var s := After(cfg, ls[..i]);
    var id :| id in s.store.table && s.store.table[id] == o;
    assert o in s.store.table.Values;
  }

  lemma PickedIsUnprocessed(cfg: Config, ls: seq<Label>, j: nat)
    requires Run(cfg, ls) && j < |ls| && ls[j].Pick?
    ensures Run(cfg, ls[..j]) && ls[j].o in After(cfg, ls[..j]).store.heap
    ensures !After(cfg, ls[..j]).store.heap[ls[j].o].nodeProcessed
  {
    EnabledAt(cfg, ls, j);
  }

  /**
   Once a handler has marked a node as processed, no event that was stored for that node is
   ever picked again.
   */
  lemma MarkedNeverPicked(cfg: Config, ls: seq<Label>, i: nat, j: nat)
    requires Run(cfg, ls) && i < j < |ls| && ls[j].Pick?
    ensures !MarkedAt(cfg, ls, i, ls[j].o)
  {
    PickedIsUnprocessed(cfg, ls, j);
    if MarkedAt(cfg, ls, i, ls[j].o) {
      MarkSetsProcessed(cfg, ls, i, ls[j].o);
      assert ls[..j][..i + 1] == ls[..i + 1];
      EventNeverChanges(cfg, ls[..j], i + 1, ls[j].o);
    }
  }

  // ---- uncordoning

  /** Step k inserted an event whose ID was not ignored at that moment. */
  ghost predicate CountedInsert(cfg: Config, ls: seq<Label>, k: nat) {
    && k < |ls| && ls[k].AddInsert? && Run(cfg, ls[..k])
    && var s := After(cfg, ls[..k]);
       ls[k].o in s.store.heap && s.store.heap[ls[k].o].eventId !in s.store.ignored
  }

  ghost predicate EverCounted(cfg: Config, ls: seq<Label>) { exists k: nat :: CountedInsert(cfg, ls, k) }

  lemma {:induction false} AtLeastOneIffInserted(cfg: Config, ls: seq<Label>)
    requires Run(cfg, ls)
    ensures After(cfg, ls).store.atLeastOne <==> EverCounted(cfg, ls)
    decreases |ls|
  {
    if ls != [] {
      var n := |ls| - 1;
      RunTo(cfg, ls, n);
      AtLeastOneIffInserted(cfg, ls[..n]);
      AtLeastOneLast(cfg, ls);
      CountedSplit(cfg, ls);
    }
  }

  lemma AtLeastOneLast(cfg: Config, ls: seq<Label>)
    requires Run(cfg, ls) && ls != [] && Run(cfg, ls[..|ls| - 1])
    ensures After(cfg, ls).store.atLeastOne <==>
      After(cfg, ls[..|ls| - 1]).store.atLeastOne || CountedInsert(cfg, ls, |ls| - 1)
  {
    var n := |ls| - 1;
    RunPrefix(cfg, ls, n);
    assert ls[..n + 1] == ls;
    AtLeastOneStep(cfg, After(cfg, ls[..n]), ls[n]);
  }

  lemma CountedSplit(cfg: Config, ls: seq<Label>)
    requires ls != []
    ensures EverCounted(cfg, ls) <==> EverCounted(cfg, ls[..|ls| - 1]) || CountedInsert(cfg, ls, |ls| - 1)
  {
    var n := |ls| - 1;
    if k: nat :| CountedInsert(cfg, ls[..n], k) {
      assert ls[..n][..k] == ls[..k];
      assert CountedInsert(cfg, ls, k);
    }
    if k: nat :| CountedInsert(cfg, ls, k) {
      assert k == n || ls[..n][..k] == ls[..k];
      assert k == n || CountedInsert(cfg, ls[..n], k);
    }
  }

  lemma AtLeastOneStep(cfg: Config, s: State, l: Label)
    requires Enabled(cfg, s, l)
    ensures Apply(cfg, s, l).store.atLeastOne
        <==> s.store.atLeastOne || (l.AddInsert? && s.store.heap[l.o].eventId !in s.store.ignored)
  {
  }

  /**
   The watcher uncordons a node exactly when some event that counted was ever inserted and
   none that counts is left for that node.
   */
  lemma UncordonsExactly(cfg: Config, ls: seq<Label>, i: nat, node: string, uncordon: bool)
    requires Run(cfg, ls) && i < |ls| && ls[i] == WatcherDecide(node, uncordon)
    ensures Run(cfg, ls[..i])
    ensures var s := After(cfg, ls[..i]);
      uncordon <==>
        && EverCounted(cfg, ls[..i])
        && (forall id | id in s.store.table && id !in s.store.ignored :: s.store.heap[s.store.table[id]].node != node)
  {
    EnabledAt(cfg, ls, i);
    AtLeastOneIffInserted(cfg, ls[..i]);
  }
}
