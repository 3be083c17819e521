/**
 Runs that happen: every path of the handler automaton is taken in some run, and with it each
 of the exits that leave an entry or a heartbeat behind.
 */
module PipelineWitnesses {
  import opened Wrappers
  import opened InterruptionEvents
  import opened EventStoreSpec
  import opened QueueReceipt
  import opened Pipeline
  import opened PipelineDispatch
  import opened PipelineHandlers
  import opened PipelineExits
  import opened PipelineEntries
  import opened HandlerCode

  function Acts(o: nat, t: seq<Action>): seq<Label> {
    seq(|t|, i requires 0 <= i < |t| => Act(o, t[i]))
  }

  lemma SameActs(cfg: Config, e: Event, f: Event, pc: HandlerPc, a: Action)
    requires SameEvent(e, f) && CanAct(cfg, e, pc, a)
    ensures CanAct(cfg, f, pc, a) && NextPc(cfg, f, pc, a) == NextPc(cfg, e, pc, a)
    ensures forall s: StoreState<nat> :: ActOnStore(s, f, pc) == ActOnStore(s, e, pc)
  {
  }

  /** The handler of `o` stands at `pc`, with the event it was given. */
  ghost predicate Stands(cfg: Config, ls: seq<Label>, o: nat, e: Event, pc: HandlerPc) {
    && Run(cfg, ls) && o in After(cfg, ls).handlers && After(cfg, ls).handlers[o] == pc
    && o in After(cfg, ls).store.heap && SameEvent(e, After(cfg, ls).store.heap[o])
  }

  lemma ActStands(cfg: Config, ls: seq<Label>, o: nat, e: Event, pc: HandlerPc, a: Action)
    requires Stands(cfg, ls, o, e, pc) && CanAct(cfg, e, pc, a) && !a.Release?
    ensures Stands(cfg, ls + [Act(o, a)], o, e, NextPc(cfg, e, pc, a))
    ensures After(cfg, ls + [Act(o, a)]).store == ActOnStore(After(cfg, ls).store, e, pc)
  {
    var s := After(cfg, ls);
    SameActs(cfg, e, s.store.heap[o], pc, a);
    ExtendRun(cfg, ls, Act(o, a));
    StepHeap(cfg, s, Act(o, a));
  }

  /**
   A handler can take every path of its automaton from any reachable state, and left alone it
   does to the store what the path says.
   */
  lemma {:induction false} EveryPathRuns(cfg: Config, ls: seq<Label>, o: nat, e: Event, pc: HandlerPc, t: seq<Action>)
    requires Stands(cfg, ls, o, e, pc) && Walk(cfg, e, pc, t).Some? && Release !in t
    ensures Stands(cfg, ls + Acts(o, t), o, e, Walk(cfg, e, pc, t).value)
    ensures After(cfg, ls + Acts(o, t)).store == StoreAfter(cfg, e, pc, t, After(cfg, ls).store)
    decreases |t|
  {
    if t == [] {
      assert ls + Acts(o, t) == ls;
    } else {
      var n := |t| - 1;
      EveryPathRuns(cfg, ls, o, e, pc, t[..n]);
      ActStands(cfg, ls + Acts(o, t[..n]), o, e, Walk(cfg, e, pc, t[..n]).value, t[n]);
      assert ls + Acts(o, t[..n]) + [Act(o, t[n])] == ls + Acts(o, t);
    }
  }

  // ---- one message with one event, taken to its handler

  function Message(d: Draft): Wrapper { Wrapper(NoError, Some(Built(d, true, true))) }

  function Added(d: Draft): seq<Label> { [Receive(0, [Message(d)]), NextWrapper, AddCheck, AddInsert(0)] }

  function Dispatched(cfg: Config, d: Draft): seq<Label> {
    Added(d) + [Sweep, Pick(0, d.startTime - cfg.gracePeriod), TakeSlot(0), SetInProgress(0), Spawn(0)]
  }

  function AddedState(d: Draft): Snapshot {
    var e := d.ToEvent(Some(0));
    Snapshot(StoreState(map[d.eventId := 0], map[0 := e], {}, true, 0), 1, 1,
             Processing(0, [Message(d)], 1, 0), AdderIdle, DispatcherIdle, map[], 0)
  }

  lemma AddedRuns(cfg: Config, d: Draft)
    ensures Run(cfg, Added(d)) && After(cfg, Added(d)) == AddedState(d)
  {
    var l := Added(d);
    assert Run(cfg, []);
    ExtendRun(cfg, [], l[0]);
    ExtendRun(cfg, [] + [l[0]], l[1]);
    ExtendRun(cfg, [] + [l[0]] + [l[1]], l[2]);
    ExtendRun(cfg, [] + [l[0]] + [l[1]] + [l[2]], l[3]);
    assert [] + [l[0]] + [l[1]] + [l[2]] + [l[3]] == l;
  }

  lemma PickedRuns(cfg: Config, d: Draft)
    ensures var ls := Added(d) + [Sweep] + [Pick(0, d.startTime - cfg.gracePeriod)];
      && Run(cfg, ls)
      && After(cfg, ls) == AddedState(d).(store := AddedState(d).store.(callsSinceLastClean := 1), dispatcher := Picked(0))
  {
    AddedRuns(cfg, d);
    var now := d.startTime - cfg.gracePeriod;
    ExtendRun(cfg, Added(d), Sweep);
    var s := After(cfg, Added(d) + [Sweep]);
    assert d.eventId in DrainableIds(s.store, now, cfg.gracePeriod) && s.store.table[d.eventId] == 0;
    ExtendRun(cfg, Added(d) + [Sweep], Pick(0, now));
  }

  function StartRun(cfg: Config, d: Draft): seq<Label> {
    Added(d) + [Sweep] + [Pick(0, d.startTime - cfg.gracePeriod)] + [TakeSlot(0)] + [SetInProgress(0)]
  }

  lemma SlotRuns(cfg: Config, d: Draft)
    requires cfg.workers > 0
    ensures var ls := Added(d) + [Sweep] + [Pick(0, d.startTime - cfg.gracePeriod)] + [TakeSlot(0)];
      Run(cfg, ls) && var s := After(cfg, ls);
        && s.dispatcher == Slotted(0) && s.store.table == map[d.eventId := 0]
        && s.store.heap == map[0 := d.ToEvent(Some(0))]
  {
    PickedRuns(cfg, d);
    ExtendRun(cfg, Added(d) + [Sweep] + [Pick(0, d.startTime - cfg.gracePeriod)], TakeSlot(0));
  }

  lemma StartRuns(cfg: Config, d: Draft)
    requires cfg.workers > 0
    ensures Run(cfg, StartRun(cfg, d))
    ensures var s := After(cfg, StartRun(cfg, d));
      && s.dispatcher == DispatcherPc.Started(0) && s.store.table == map[d.eventId := 0]
      && s.store.heap == map[0 := d.ToEvent(Some(0)).(inProgress := true)]
  {
    SlotRuns(cfg, d);
    ExtendRun(cfg, Added(d) + [Sweep] + [Pick(0, d.startTime - cfg.gracePeriod)] + [TakeSlot(0)], SetInProgress(0));
  }

  lemma DispatchedStands(cfg: Config, d: Draft)
    requires cfg.workers > 0
    ensures Stands(cfg, Dispatched(cfg, d), 0, d.ToEvent(Some(0)), LaunchCheck)
    ensures d.eventId in After(cfg, Dispatched(cfg, d)).store.table && After(cfg, Dispatched(cfg, d)).store.table[d.eventId] == 0
  {
    StartRuns(cfg, d);
    ExtendRun(cfg, StartRun(cfg, d), Spawn(0));
    assert StartRun(cfg, d) + [Spawn(0)] == Dispatched(cfg, d);
  }

  // ---- a handler from its start to its release

  function WholeRun(cfg: Config, d: Draft, t: seq<Action>): seq<Label> {
    Dispatched(cfg, d) + Acts(0, t) + [Act(0, Release)]
  }

  lemma WholeRunRuns(cfg: Config, d: Draft, t: seq<Action>)
    requires cfg.workers > 0 && Release !in t
    requires Walk(cfg, d.ToEvent(Some(0)), LaunchCheck, t) == Some(Releasing)
    ensures Run(cfg, WholeRun(cfg, d, t)) && 0 !in After(cfg, WholeRun(cfg, d, t)).handlers
  {
    DispatchedStands(cfg, d);
    EveryPathRuns(cfg, Dispatched(cfg, d), 0, d.ToEvent(Some(0)), LaunchCheck, t);
    var ls := Dispatched(cfg, d) + Acts(0, t);
    SlotsPositive(cfg, ls, 0);
    ExtendRun(cfg, ls, Act(0, Release));
  }

  lemma SlotsPositive(cfg: Config, ls: seq<Label>, o: nat)
    requires Run(cfg, ls) && o in After(cfg, ls).handlers
    ensures After(cfg, ls).slots > 0
  {
    SlotsAreHandlers(cfg, ls);
    assert |After(cfg, ls).handlers| > 0;
  }

  lemma WholeRunSteps(cfg: Config, d: Draft, t: seq<Action>, a: Action)
    ensures Act(0, a) in WholeRun(cfg, d, t) <==> a in t || a.Release?
  {
    var ls := WholeRun(cfg, d, t);
    var n := |Dispatched(cfg, d)|;
    if a in t {
      var i :| 0 <= i < |t| && t[i] == a;
      assert ls[n + i] == Act(0, a);
    }
    assert ls[|ls| - 1] == Act(0, Release);
  }

  /** The handler has come and gone and the entry is still open. */
  ghost predicate LeftOpen(cfg: Config, ls: seq<Label>, o: nat) {
    Run(cfg, ls) && Act(o, Release) in ls && o !in After(cfg, ls).handlers && Open(After(cfg, ls), o)
  }

  /** No step on the path removes the entry or marks the event's own node. */
  ghost predicate AvoidsEntry(t: seq<Action>, node: string) {
    && Release !in t && RemoveLaunch !in t && RemoveFailed !in t
    && (MarkProcessed in t ==> ResolveName(Some(node)) !in t)
  }

  const PICK: nat := 5

  lemma NothingClosesIt(cfg: Config, d: Draft, t: seq<Action>, k: nat)
    requires AvoidsEntry(t, d.node) && Run(cfg, WholeRun(cfg, d, t)) && PICK <= k < |WholeRun(cfg, d, t)|
    requires OpenAt(cfg, WholeRun(cfg, d, t), k, 0)
    requires After(cfg, WholeRun(cfg, d, t)[..k]).store.heap[0].node == d.node
    ensures !ClosedAt(cfg, WholeRun(cfg, d, t), k, 0)
  {
    var ls := WholeRun(cfg, d, t);
    ClosingStep(cfg, ls, k, 0);
    if ls[k].Act? {
      assert OwnStepOf(ls[k], 0) && (ls[k].action in t || ls[k].action.Release?);
      OwnClosing(cfg, ls, k, 0);
      WholeRunSteps(cfg, d, t, ResolveName(Some(d.node)));
      assert forall l | l in ls[..k] :: l in ls;
    }
  }

  /** The event in the run is the one in the message. */
  lemma SameDraft(cfg: Config, d: Draft, t: seq<Action>, k: nat)
    requires Run(cfg, WholeRun(cfg, d, t)) && PICK <= k <= |WholeRun(cfg, d, t)|
    ensures Run(cfg, WholeRun(cfg, d, t)[..k])
    ensures 0 in After(cfg, WholeRun(cfg, d, t)[..k]).store.heap
    ensures After(cfg, WholeRun(cfg, d, t)[..k]).store.heap[0].node == d.node
  {
    var ls := WholeRun(cfg, d, t);
    RunTo(cfg, ls, k);
    AddedRuns(cfg, d);
    assert ls[..k][..4] == Added(d);
    EventNeverChanges(cfg, ls[..k], 4, 0);
  }

  lemma PathLeavesOpen(cfg: Config, d: Draft, t: seq<Action>)
    requires cfg.workers > 0 && AvoidsEntry(t, d.node)
    requires Walk(cfg, d.ToEvent(Some(0)), LaunchCheck, t) == Some(Releasing)
    ensures LeftOpen(cfg, WholeRun(cfg, d, t), 0)
  {
    var ls := WholeRun(cfg, d, t);
    WholeRunRuns(cfg, d, t);
    assert ls[PICK] == Pick(0, d.startTime - cfg.gracePeriod);
    PickedIsOpen(cfg, ls, PICK);
    OpenUnlessClosed(cfg, ls, PICK, |ls|, 0);
    assert ls[..|ls|] == ls;
    if k :| PICK <= k < |ls| && ClosedAt(cfg, ls, k, 0) {
      SameDraft(cfg, d, t, k);
      NothingClosesIt(cfg, d, t, k);
    }
    WholeRunSteps(cfg, d, t, Release);
  }

  // ---- the exits

  const UNNAMED := [SkipLaunch, ResolveName(None)]

  /** With provider IDs, any event can end with its entry left because no name was found. */
  lemma UnnamedEntryRun(cfg: Config, d: Draft)
    requires cfg.workers > 0 && cfg.useProviderId && !d.kind.AsgLaunch?
    ensures LeftOpen(cfg, WholeRun(cfg, d, UNNAMED), 0)
  {
    var e := d.ToEvent(Some(0));
    WalkOne(cfg, e, LaunchCheck, [], SkipLaunch);
    WalkOne(cfg, e, LaunchCheck, [SkipLaunch], ResolveName(None));
    assert [] + [SkipLaunch] == [SkipLaunch] && [SkipLaunch] + [ResolveName(None)] == UNNAMED;
    PathLeavesOpen(cfg, d, UNNAMED);
  }

  const READY_LAUNCH := [NodeReady(Ready), LaunchName(true), Complete(true), DeleteMessage, SkipDrain]

  /** A launch that went well, its message deleted, leaves its entry in every configuration. */
  lemma ReadyLaunchRun(cfg: Config, d: Draft)
    requires cfg.workers > 0 && d.kind.AsgLaunch?
    ensures LeftOpen(cfg, WholeRun(cfg, d, READY_LAUNCH), 0)
  {
    var e, t := d.ToEvent(Some(0)), READY_LAUNCH;
    WalkEach(cfg, e, t, [LaunchCheck, LaunchResolve, Completing(false), Deleting(false), DrainEntry, Releasing], 5);
    assert t[..5] == t;
    PathLeavesOpen(cfg, d, t);
  }

  /** A path given with the places it goes through. */
  lemma {:induction false} WalkEach(cfg: Config, e: Event, t: seq<Action>, pcs: seq<HandlerPc>, k: nat)
    requires |pcs| == |t| + 1 && k <= |t|
    requires forall i | 0 <= i < |t| :: CanAct(cfg, e, pcs[i], t[i]) && NextPc(cfg, e, pcs[i], t[i]) == pcs[i + 1]
    ensures Walk(cfg, e, pcs[0], t[..k]) == Some(pcs[k])
  {
    if k > 0 {
      WalkEach(cfg, e, t, pcs, k - 1);
      WalkOne(cfg, e, pcs[0], t[..k - 1], t[k - 1]);
      assert t[..k - 1] + [t[k - 1]] == t[..k];
    }
  }

  /** A drain that works, under the given name. */
  function DrainedPath(name: string): seq<Action> {
    [SkipLaunch, ResolveName(Some(name)), FetchLabels(true), PreDrain, CordonDrain(true), MarkProcessed, DecidePost]
  }

  function DrainedPcs(e: Event, name: string): seq<HandlerPc> {
    [LaunchCheck, DrainEntry, Labels(name), PreDraining(name, true), Draining(name, true), Marking(name, true),
     PostGate(true, true), PostStart(e, true)]
  }

  lemma DrainedWalks(cfg: Config, e: Event, name: string)
    requires !e.kind.AsgLaunch? && e.receipt.Some? && (cfg.useProviderId || name == e.node)
    ensures Walk(cfg, e, LaunchCheck, DrainedPath(name)) == Some(PostStart(e, true))
  {
    var t := DrainedPath(name);
    WalkEach(cfg, e, t, DrainedPcs(e, name), |t|);
    assert t[..|t|] == t;
  }

  function TaintStep(cfg: Config, drained: bool): seq<Action> {
    if drained && cfg.outOfServiceTaint then [TaintOutOfService(true)] else []
  }

  /** The post-drain task going well. */
  function PostSteps(kind: Kind): seq<Action> {
    if kind.AsgLifecycle? then [Complete(true), CloseStop, DeleteMessage] else [DeleteMessage]
  }

  function PostPcs(kind: Kind, drained: bool): seq<HandlerPc> {
    if kind.AsgLifecycle? then [Completing(drained), ClosingStop(drained), Deleting(drained)] else [Deleting(drained)]
  }

  lemma PostWalks(cfg: Config, e: Event, drained: bool)
    requires !e.kind.AsgLaunch? && e.receipt.Some?
    ensures Walk(cfg, e, PostStart(e, drained), PostSteps(e.kind) + TaintStep(cfg, drained)) == Some(Releasing)
  {
    var t := PostSteps(e.kind) + TaintStep(cfg, drained);
    var pcs := PostPcs(e.kind, drained) + (if drained && cfg.outOfServiceTaint then [Tainting] else []) + [Releasing];
    WalkEach(cfg, e, t, pcs, |t|);
    assert t[..|t|] == t;
  }

  // ---- a node known under another name

  function OtherNamePath(cfg: Config, kind: Kind, name: string): seq<Action> {
    DrainedPath(name) + (PostSteps(kind) + TaintStep(cfg, true))
  }

  lemma OtherNameAvoids(cfg: Config, kind: Kind, name: string, node: string)
    requires name != node
    ensures AvoidsEntry(OtherNamePath(cfg, kind, name), node) && DeleteMessage in OtherNamePath(cfg, kind, name)
  {
    var t := OtherNamePath(cfg, kind, name);
    assert t[if kind.AsgLifecycle? then 9 else 7] == DeleteMessage;
  }

  /**
   With provider IDs, for every event from the queue whose own node name is not the name its node
   is known by, a run that drains the node, deletes the message and leaves the entry open.
   */
  lemma OtherNameRun(cfg: Config, d: Draft, name: string)
    requires cfg.workers > 0 && cfg.useProviderId && !d.kind.AsgLaunch? && name != d.node
    ensures var ls := WholeRun(cfg, d, OtherNamePath(cfg, d.kind, name));
      LeftOpen(cfg, ls, 0) && Act(0, DeleteMessage) in ls
  {
    var e, t := d.ToEvent(Some(0)), OtherNamePath(cfg, d.kind, name);
    DrainedWalks(cfg, e, name);
    PostWalks(cfg, e, true);
    WalkAll(cfg, e, LaunchCheck, DrainedPath(name), PostSteps(d.kind) + TaintStep(cfg, true));
    OtherNameAvoids(cfg, d.kind, name, d.node);
    PathLeavesOpen(cfg, d, t);
    WholeRunSteps(cfg, d, t, DeleteMessage);
  }

  // ---- a message lost to one failed read

  function FailedDrain(kind: Kind, node: string): seq<Action> {
    [SkipLaunch, ResolveName(Some(node)), FetchLabels(false), PreDrain, CordonDrain(false)]
    + (if kind.AsgLifecycle? then [CancelTask] else []) + [RemoveFailed, DecidePost]
  }

  function FailedDrainPcs(e: Event): seq<HandlerPc> {
    [LaunchCheck, DrainEntry, Labels(e.node), PreDraining(e.node, false), Draining(e.node, false)]
    + (if e.kind.AsgLifecycle? then [Cancelling(false)] else []) + [Removing(false), PostGate(false, false), PostStart(e, false)]
  }

  lemma FailedDrainWalks(cfg: Config, e: Event)
    requires !e.kind.AsgLaunch? && e.receipt.Some? && cfg.deleteIfNodeNotFound
    ensures Walk(cfg, e, LaunchCheck, FailedDrain(e.kind, e.node)) == Some(PostStart(e, false))
  {
    var t := FailedDrain(e.kind, e.node);
    WalkEach(cfg, e, t, FailedDrainPcs(e), |t|);
    assert t[..|t|] == t;
  }

  function LostPath(kind: Kind, node: string): seq<Action> { FailedDrain(kind, node) + PostSteps(kind) }

  lemma LostSteps(kind: Kind, node: string)
    ensures var t := LostPath(kind, node);
      Release !in t && CordonDrain(false) in t && CordonDrain(true) !in t && DeleteMessage in t
  {
    var t := LostPath(kind, node);
    assert t[4] == CordonDrain(false) && t[|t| - 1] == DeleteMessage;
  }

  /**
   With the delete flag on, for every event from the queue, a run in which one failed read of the
   node's labels gets the message deleted although the drain failed.
   */
  lemma LostMessageRun(cfg: Config, d: Draft)
    requires cfg.workers > 0 && cfg.deleteIfNodeNotFound && !d.kind.AsgLaunch?
    ensures var ls := WholeRun(cfg, d, LostPath(d.kind, d.node));
      && Run(cfg, ls) && 0 !in After(cfg, ls).handlers
      && Act(0, CordonDrain(false)) in ls && Act(0, CordonDrain(true)) !in ls && Act(0, DeleteMessage) in ls
  {
    var e, t := d.ToEvent(Some(0)), LostPath(d.kind, d.node);
    FailedDrainWalks(cfg, e);
    PostWalks(cfg, e, false);
    assert PostSteps(d.kind) + TaintStep(cfg, false) == PostSteps(d.kind);
    WalkAll(cfg, e, LaunchCheck, FailedDrain(d.kind, d.node), PostSteps(d.kind));
    LostSteps(d.kind, d.node);
    WholeRunRuns(cfg, d, t);
    WholeRunSteps(cfg, d, t, CordonDrain(false));
    WholeRunSteps(cfg, d, t, CordonDrain(true));
    WholeRunSteps(cfg, d, t, DeleteMessage);
  }

  // ---- a heartbeat left running

  function FailedCompletion(cfg: Config, node: string): seq<Action> {
    DrainedPath(node) + ([Complete(false)] + TaintStep(cfg, true))
  }

  lemma FailedCompletionWalks(cfg: Config, e: Event)
    requires e.kind.AsgLifecycle? && e.receipt.Some?
    ensures Walk(cfg, e, LaunchCheck, FailedCompletion(cfg, e.node)) == Some(Releasing)
  {
    DrainedWalks(cfg, e, e.node);
    var rest := [Complete(false)] + TaintStep(cfg, true);
    var pcs := if cfg.outOfServiceTaint then [Completing(true), Tainting, Releasing] else [Completing(true), Releasing];
    WalkEach(cfg, e, rest, pcs, |rest|);
    assert rest[..|rest|] == rest;
    WalkAll(cfg, e, LaunchCheck, DrainedPath(e.node), rest);
  }

  lemma PathLeavesHeartbeat(cfg: Config, d: Draft, t: seq<Action>)
    requires cfg.workers > 0 && cfg.heartbeats && Release !in t
    requires PreDrain in t && CancelTask !in t && CloseStop !in t
    requires Walk(cfg, d.ToEvent(Some(0)), LaunchCheck, t) == Some(Releasing)
    ensures var ls := WholeRun(cfg, d, t);
      Run(cfg, ls) && 0 !in After(cfg, ls).handlers && LeavesHeartbeat(cfg, ls, 0)
  {
    WholeRunRuns(cfg, d, t);
    WholeRunSteps(cfg, d, t, PreDrain);
    WholeRunSteps(cfg, d, t, CancelTask);
    WholeRunSteps(cfg, d, t, CloseStop);
  }

  lemma FailedCompletionSteps(cfg: Config, node: string)
    ensures var t := FailedCompletion(cfg, node);
      PreDrain in t && CancelTask !in t && CloseStop !in t && Release !in t
  {
    assert FailedCompletion(cfg, node)[3] == PreDrain;
  }

  /** With heartbeats on, any ASG termination event can end with its heartbeat still running. */
  lemma LeftHeartbeatRun(cfg: Config, d: Draft)
    requires cfg.workers > 0 && cfg.heartbeats && d.kind.AsgLifecycle?
    ensures var ls := WholeRun(cfg, d, FailedCompletion(cfg, d.node));
      Run(cfg, ls) && 0 !in After(cfg, ls).handlers && LeavesHeartbeat(cfg, ls, 0)
  {
    FailedCompletionWalks(cfg, d.ToEvent(Some(0)));
    FailedCompletionSteps(cfg, d.node);
    PathLeavesHeartbeat(cfg, d, FailedCompletion(cfg, d.node));
  }

  // ---- the bound on a handler's steps is reached

  function LongestPath(cfg: Config, node: string): seq<Action> {
    DrainedPath(node) + (PostSteps(AsgLifecycle) + TaintStep(cfg, true))
  }

  lemma LongestPathWalks(cfg: Config, e: Event)
    requires e.kind.AsgLifecycle? && e.receipt.Some?
    ensures Walk(cfg, e, LaunchCheck, LongestPath(cfg, e.node)) == Some(Releasing)
  {
    DrainedWalks(cfg, e, e.node);
    PostWalks(cfg, e, true);
    WalkAll(cfg, e, LaunchCheck, DrainedPath(e.node), PostSteps(AsgLifecycle) + TaintStep(cfg, true));
  }

  lemma {:induction false} OwnStepsOfActs(ls: seq<Label>, o: nat, t: seq<Action>)
    ensures OwnSteps(ls + Acts(o, t), o) == OwnSteps(ls, o) + |t|
    decreases |t|
  {
    if t == [] {
      assert ls + Acts(o, t) == ls;
    } else {
      var n := |t| - 1;
      OwnStepsOfActs(ls, o, t[..n]);
      assert (ls + Acts(o, t))[..|ls| + n] == ls + Acts(o, t[..n]);
    }
  }

  lemma LongestRun(cfg: Config, d: Draft)
    requires cfg.workers > 0 && cfg.outOfServiceTaint && d.kind.AsgLifecycle?
    ensures var ls := WholeRun(cfg, d, LongestPath(cfg, d.node));
      Run(cfg, ls) && OwnSteps(ls, 0) >= MOST_STEPS
  {
    var t := LongestPath(cfg, d.node);
    LongestPathWalks(cfg, d.ToEvent(Some(0)));
    WholeRunRuns(cfg, d, t);
    OwnStepsOfActs(Dispatched(cfg, d), 0, t);
    assert WholeRun(cfg, d, t)[..|Dispatched(cfg, d)| + |t|] == Dispatched(cfg, d) + Acts(0, t);
  }
}
