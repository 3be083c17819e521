/**
 Handlers: what they did before a queue message is deleted, the order of their steps (so no
 heartbeat channel is closed twice), and that no goroutine keeps another from its next step.
 */
module PipelineHandlers {
  import opened Wrappers
  import opened InterruptionEvents
  import opened EventStoreSpec
  import opened QueueReceipt
  import opened Pipeline
  import opened PipelineDispatch

  // ---- why a post-drain task may run

  /** A ready launch, a successful cordon or drain, or a lookup failure with the delete flag on. */
  ghost predicate Earned(cfg: Config, ls: seq<Label>, o: nat, e: Event) {
    if e.kind.AsgLaunch? then Act(o, NodeReady(Ready)) in ls
    else Act(o, CordonDrain(true)) in ls || (cfg.deleteIfNodeNotFound && Act(o, FetchLabels(false)) in ls)
  }

  predicate HasLifecycle(e: Event) { e.kind.AsgLifecycle? || e.kind.AsgLaunch? }

  /** The heartbeat was told to stop, failed to complete after a drain, or never had a node. */
  ghost predicate HeartbeatOutcome(ls: seq<Label>, o: nat) {
    || Act(o, CancelTask) in ls || Act(o, CloseStop) in ls
    || (Act(o, CordonDrain(true)) in ls && Act(o, Complete(false)) in ls)
    || Act(o, ResolveName(None)) in ls
  }

  /** What the handler has done about the event's entry by the time nothing more can be done. */
  ghost predicate EntryOutcome(ls: seq<Label>, o: nat, e: Event) {
    if e.kind.AsgLaunch? then Act(o, RemoveLaunch) in ls || Act(o, NodeReady(Ready)) in ls
    else Act(o, MarkProcessed) in ls || Act(o, RemoveFailed) in ls || Act(o, ResolveName(None)) in ls
  }

  /** The drain's outcome, and the heartbeat's end if it failed. */
  ghost predicate DrainOutcome(ls: seq<Label>, o: nat, e: Event, drained: bool) {
    !e.kind.AsgLaunch? ==>
      Act(o, CordonDrain(drained)) in ls && (HasChannels(e) && !drained ==> Act(o, CancelTask) in ls)
  }

  /** The name was resolved and the labels of that node were asked for. */
  ghost predicate Looked(ls: seq<Label>, o: nat, e: Event, node: string, found: bool) {
    !e.kind.AsgLaunch? && Act(o, ResolveName(Some(node))) in ls && Act(o, FetchLabels(found)) in ls
  }

  /** The message was deleted, or why not. */
  ghost predicate PostOutcome(cfg: Config, ls: seq<Label>, o: nat, e: Event) {
    !e.kind.AsgLaunch? && HasPostTask(e) ==>
      || Act(o, DeleteMessage) in ls || Act(o, Complete(false)) in ls || Act(o, ResolveName(None)) in ls
      || (Act(o, CordonDrain(false)) in ls && (Act(o, FetchLabels(true)) in ls || !cfg.deleteIfNodeNotFound))
  }

  /** What a handler at `pc` has already seen. */
  ghost predicate Evidence(cfg: Config, ls: seq<Label>, o: nat, e: Event, pc: HandlerPc) {
    match pc
    case LaunchCheck => true
    case LaunchRemove => e.kind.AsgLaunch?
    case LaunchResolve => e.kind.AsgLaunch? && Act(o, NodeReady(Ready)) in ls
    case DrainEntry => e.kind.AsgLaunch? ==> Act(o, RemoveLaunch) in ls || Act(o, NodeReady(Ready)) in ls
    case Labels(node) => !e.kind.AsgLaunch? && Act(o, ResolveName(Some(node))) in ls
    case PreDraining(node, found) => Looked(ls, o, e, node, found)
    case Draining(node, found) => Looked(ls, o, e, node, found) && Act(o, PreDrain) in ls
    case Cancelling(found) =>
      HasChannels(e) && Act(o, CordonDrain(false)) in ls && Act(o, FetchLabels(found)) in ls
    case Removing(found) =>
      && !e.kind.AsgLaunch? && Act(o, CordonDrain(false)) in ls && Act(o, FetchLabels(found)) in ls
      && (HasChannels(e) ==> Act(o, CancelTask) in ls)
    case Marking(node, found) => Looked(ls, o, e, node, found) && Act(o, CordonDrain(true)) in ls
    case PostGate(found, drained) =>
      && !e.kind.AsgLaunch? && DrainOutcome(ls, o, e, drained)
      && Act(o, if drained then MarkProcessed else RemoveFailed) in ls
      && Act(o, FetchLabels(found)) in ls
    case Completing(drained) =>
      && HasPostTask(e) && Earned(cfg, ls, o, e) && HasLifecycle(e)
      && EntryOutcome(ls, o, e) && DrainOutcome(ls, o, e, drained)
    case ClosingStop(drained) =>
      && HasChannels(e) && Earned(cfg, ls, o, e) && Act(o, Complete(true)) in ls
      && EntryOutcome(ls, o, e) && DrainOutcome(ls, o, e, drained)
    case Deleting(drained) =>
      && HasPostTask(e) && Earned(cfg, ls, o, e)
      && (HasLifecycle(e) ==> Act(o, Complete(true)) in ls)
      && (HasChannels(e) ==> Act(o, CloseStop) in ls)
      && EntryOutcome(ls, o, e) && DrainOutcome(ls, o, e, drained)
    case Tainting =>
      && !e.kind.AsgLaunch? && Act(o, CordonDrain(true)) in ls && PostOutcome(cfg, ls, o, e)
      && EntryOutcome(ls, o, e) && (HasChannels(e) ==> HeartbeatOutcome(ls, o))
    case Releasing =>
      && PostOutcome(cfg, ls, o, e)
      && EntryOutcome(ls, o, e) && (HasChannels(e) ==> HeartbeatOutcome(ls, o))
  }

  ghost predicate AllEvidence(cfg: Config, ls: seq<Label>, s: State) {
    forall o | o in s.handlers :: o in s.store.heap && Evidence(cfg, ls, o, s.store.heap[o], s.handlers[o])
  }

  lemma EvidenceStep(cfg: Config, ls: seq<Label>, o: nat, e: Event, pc: HandlerPc, a: Action)
    requires Evidence(cfg, ls, o, e, pc) && CanAct(cfg, e, pc, a) && !a.Release?
    ensures Evidence(cfg, ls + [Act(o, a)], o, e, NextPc(cfg, e, pc, a))
  {
    assert forall l | l in ls :: l in ls + [Act(o, a)];
  }

  lemma EvidenceStays(cfg: Config, ls: seq<Label>, o: nat, e: Event, f: Event, pc: HandlerPc, l: Label)
    requires Evidence(cfg, ls, o, e, pc) && e.kind == f.kind && e.receipt == f.receipt
    ensures Evidence(cfg, ls + [l], o, f, pc)
  {
    assert forall k | k in ls :: k in ls + [l];
  }

  lemma StepKeepsEvidence(cfg: Config, ls: seq<Label>, s: State, l: Label)
    requires Owned(s) && AllEvidence(cfg, ls, s) && Enabled(cfg, s, l)
    ensures AllEvidence(cfg, ls + [l], Apply(cfg, s, l))
  {
    var t := Apply(cfg, s, l);
    StepHeap(cfg, s, l);
    forall o | o in t.handlers
      ensures o in t.store.heap && Evidence(cfg, ls + [l], o, t.store.heap[o], t.handlers[o])
    {
      if l == Spawn(o) {
      } else if l.Act? && l.o == o {
        EvidenceStep(cfg, ls, o, s.store.heap[o], s.handlers[o], l.action);
      } else {
        EvidenceStays(cfg, ls, o, s.store.heap[o], t.store.heap[o], s.handlers[o], l);
      }
    }
  }

  // ---- where the receipts come from

  /** The event was built from receipt r by a wrapper that was sent, not dropped. */
  ghost predicate BuiltFrom(cfg: Config, ls: seq<Label>, r: nat, e: Event) {
    exists ws: seq<Wrapper>, k: nat :: k < |ws| && Receive(r, ws) in ls
                    && Judge(cfg.checkIfManaged, ws[k]) == Send
                    && SameEvent(ws[k].event.value.draft.ToEvent(Some(r)), e)
  }

  ghost predicate Traced(cfg: Config, ls: seq<Label>, s: State) {
    && (s.monitor.Processing? ==>
          var m := s.monitor;
          && Receive(m.r, m.ws) in ls && m.next <= |m.ws|
          && m.drops == Drops(cfg.checkIfManaged, m.ws[..m.next]))
    && (forall o | o in s.store.heap && s.store.heap[o].receipt.Some? ::
          BuiltFrom(cfg, ls, s.store.heap[o].receipt.value, s.store.heap[o]))
  }

  lemma BuiltFromStays(cfg: Config, ls: seq<Label>, l: Label, r: nat, e: Event, f: Event)
    requires BuiltFrom(cfg, ls, r, e) && SameEvent(e, f)
    ensures BuiltFrom(cfg, ls + [l], r, f)
  {
    var ws: seq<Wrapper>, k: nat :| k < |ws| && Receive(r, ws) in ls && Judge(cfg.checkIfManaged, ws[k]) == Send
                 && SameEvent(ws[k].event.value.draft.ToEvent(Some(r)), e);
    assert Receive(r, ws) in ls + [l];
  }

  lemma MonitorStep(cfg: Config, ls: seq<Label>, s: State, l: Label)
    requires Traced(cfg, ls, s) && Enabled(cfg, s, l)
    ensures var m := Apply(cfg, s, l).monitor;
      m.Processing? ==>
        && Receive(m.r, m.ws) in ls + [l] && m.next <= |m.ws|
        && m.drops == Drops(cfg.checkIfManaged, m.ws[..m.next])
  {
    if l.NextWrapper? {
      var m := s.monitor;
      assert m.ws[..m.next + 1][..m.next] == m.ws[..m.next];
    }
  }

  lemma StepKeepsTraced(cfg: Config, ls: seq<Label>, s: State, l: Label)
    requires Traced(cfg, ls, s) && Enabled(cfg, s, l)
    ensures Traced(cfg, ls + [l], Apply(cfg, s, l))
  {
    var t := Apply(cfg, s, l);
    StepHeap(cfg, s, l);
    MonitorStep(cfg, ls, s, l);
    forall o | o in t.store.heap && t.store.heap[o].receipt.Some?
      ensures BuiltFrom(cfg, ls + [l], t.store.heap[o].receipt.value, t.store.heap[o])
    {
      if o in s.store.heap {
        BuiltFromStays(cfg, ls, l, t.store.heap[o].receipt.value, s.store.heap[o], t.store.heap[o]);
      } else {
        var m := s.monitor;
        assert l.NextWrapper? && m.next < |m.ws| && Receive(m.r, m.ws) in ls + [l];
        assert SameEvent(m.ws[m.next].event.value.draft.ToEvent(Some(m.r)), t.store.heap[o]);
      }
    }
  }

  lemma {:induction false} RunEvidence(cfg: Config, ls: seq<Label>)
    requires Run(cfg, ls)
    ensures AllEvidence(cfg, ls, After(cfg, ls)) && Traced(cfg, ls, After(cfg, ls))
    decreases |ls|
  {
    if ls != [] {
      var n := |ls| - 1;
      RunPrefix(cfg, ls, n);
      RunEvidence(cfg, ls[..n]);
      RunInvariant(cfg, ls[..n]);
      StepKeepsEvidence(cfg, ls[..n], After(cfg, ls[..n]), ls[n]);
      StepKeepsTraced(cfg, ls[..n], After(cfg, ls[..n]), ls[n]);
      assert ls[..n] + [ls[n]] == ls && ls[..n + 1] == ls;
    }
  }

  // ---- deleting a queue message

  /** Step i of the run deletes the message of receipt r. */
  ghost predicate Deletes(cfg: Config, ls: seq<Label>, i: nat, r: nat)
    requires i < |ls| && Run(cfg, ls[..i])
  {
    || ls[i] == TestNotification(r)
    || ls[i] == DeleteDropped(r)
    || (ls[i].Act? && ls[i].action.DeleteMessage?
        && ls[i].o in After(cfg, ls[..i]).store.heap
        && After(cfg, ls[..i]).store.heap[ls[i].o].receipt == Some(r))
  }

  /** Everything in the message was dropped on that receipt. */
  ghost predicate NothingToDo(cfg: Config, ls: seq<Label>, r: nat) {
    exists ws :: Receive(r, ws) in ls && AllDropped(cfg.checkIfManaged, ws)
  }

  /** Event `e` comes from that receipt, its work was done, and its lifecycle hook completed. */
  ghost predicate WorkDone(cfg: Config, ls: seq<Label>, r: nat, o: nat, e: Event) {
    && BuiltFrom(cfg, ls, r, e)
    && Earned(cfg, ls, o, e)
    && (HasLifecycle(e) ==> Act(o, Complete(true)) in ls)
  }

  /**
   In every run a queue message is deleted only for a direct test notification, when all of
   it was dropped on that receipt, or after the work of an event built from it was done.
   */
  lemma DeletionJustified(cfg: Config, ls: seq<Label>, i: nat, r: nat)
    requires Run(cfg, ls) && i < |ls| && Run(cfg, ls[..i]) && Deletes(cfg, ls, i, r)
    ensures
      || ls[i] == TestNotification(r)
      || NothingToDo(cfg, ls[..i], r)
      || (ls[i].Act? && ls[i].o in After(cfg, ls[..i]).store.heap
          && WorkDone(cfg, ls[..i], r, ls[i].o, After(cfg, ls[..i]).store.heap[ls[i].o]))
  {
    EnabledAt(cfg, ls, i);
    RunEvidence(cfg, ls[..i]);
    var s := After(cfg, ls[..i]);
    if ls[i].DeleteDropped? {
      assert s.monitor.ws[..s.monitor.next] == s.monitor.ws;
      DropsFullIffAllDropped(cfg.checkIfManaged, s.monitor.ws);
    }
  }

  predicate TakesReceipt(l: Label) { l.Receive? || l.TestNotification? }

  ghost predicate FreshReceipts(ls: seq<Label>, next: nat) {
    && (forall k | 0 <= k < |ls| && TakesReceipt(ls[k]) :: ls[k].r < next)
    && (forall i, j | 0 <= i < j < |ls| && TakesReceipt(ls[i]) && TakesReceipt(ls[j]) :: ls[i].r < ls[j].r)
  }

  lemma StepKeepsReceipts(cfg: Config, ls: seq<Label>, s: State, l: Label)
    requires FreshReceipts(ls, s.nextReceipt) && Enabled(cfg, s, l)
    ensures FreshReceipts(ls + [l], Apply(cfg, s, l).nextReceipt)
  {
    assert Apply(cfg, s, l).nextReceipt == if TakesReceipt(l) then l.r + 1 else s.nextReceipt;
    assert TakesReceipt(l) ==> l.r == s.nextReceipt;
  }

  lemma {:induction false} ReceiptsAreFresh(cfg: Config, ls: seq<Label>)
    requires Run(cfg, ls)
    ensures FreshReceipts(ls, After(cfg, ls).nextReceipt)
    decreases |ls|
  {
    if ls != [] {
      var n := |ls| - 1;
      RunPrefix(cfg, ls, n);
      ReceiptsAreFresh(cfg, ls[..n]);
      StepKeepsReceipts(cfg, ls[..n], After(cfg, ls[..n]), ls[n]);
      assert ls[..n] + [ls[n]] == ls && ls[..n + 1] == ls;
    }
  }

  /** A message with an event to handle or to retry outlives its receipt until the work is done. */
  lemma UnfinishedMessageKept(cfg: Config, ls: seq<Label>, k: nat, i: nat)
    requires Run(cfg, ls) && k < |ls| && ls[k].Receive? && !AllDropped(cfg.checkIfManaged, ls[k].ws)
    requires i < |ls| && Run(cfg, ls[..i]) && Deletes(cfg, ls, i, ls[k].r)
    ensures ls[i].Act? && ls[i].o in After(cfg, ls[..i]).store.heap
    ensures WorkDone(cfg, ls[..i], ls[k].r, ls[i].o, After(cfg, ls[..i]).store.heap[ls[i].o])
  {
    DeletionJustified(cfg, ls, i, ls[k].r);
    ReceiptsAreFresh(cfg, ls);
  }

  // ---- the order of a handler's steps

  /** How far a handler is; a launch event reaches the drain handler only after its post-drain task. */
  function Rank(launch: bool, pc: HandlerPc): nat {
    match pc
    case LaunchCheck => 0
    case LaunchRemove => 1
    case LaunchResolve => 2
    case DrainEntry => if launch then 12 else 1
    case Labels(_) => 2
    case PreDraining(_, _) => 3
    case Draining(_, _) => 4
    case Cancelling(_) => 5
    case Removing(_) => 6
    case Marking(_, _) => 7
    case PostGate(_, _) => 8
    case Completing(_) => 9
    case ClosingStop(_) => 10
    case Deleting(_) => 11
    case Tainting => 12
    case Releasing => 13
  }

  /** The rank of the only place from which an action is possible. */
  function ActionRank(a: Action): nat {
    match a
    case SkipLaunch => 0
    case NodeReady(_) => 0
    case RemoveLaunch => 1
    case LaunchName(_) => 2
    case SkipDrain => 12
    case ResolveName(_) => 1
    case FetchLabels(_) => 2
    case PreDrain => 3
    case CordonDrain(_) => 4
    case CancelTask => 5
    case RemoveFailed => 6
    case MarkProcessed => 7
    case DecidePost => 8
    case Complete(_) => 9
    case CloseStop => 10
    case DeleteMessage => 11
    case TaintOutOfService(_) => 12
    case Release => 13
  }

  /** Only a launch is ever inside the launch handler. */
  predicate InPlace(e: Event, pc: HandlerPc) { pc.LaunchRemove? || pc.LaunchResolve? ==> e.kind.AsgLaunch? }

  lemma ActionsClimb(cfg: Config, e: Event, pc: HandlerPc, a: Action)
    requires InPlace(e, pc) && CanAct(cfg, e, pc, a)
    ensures Rank(e.kind.AsgLaunch?, pc) == ActionRank(a)
    ensures !a.Release? ==> ActionRank(a) < Rank(e.kind.AsgLaunch?, NextPc(cfg, e, pc, a))
  {
  }

  ghost predicate Beyond(s: State, o: nat, r: nat) {
    o in s.store.heap && (o in s.handlers ==> r < Rank(s.store.heap[o].kind.AsgLaunch?, s.handlers[o]))
  }

  /** The handler of `o` is past rank `r`, or gone for good. */
  ghost predicate Past(cfg: Config, ls: seq<Label>, k: nat, o: nat, r: nat) {
    && k <= |ls| && Run(cfg, ls[..k]) && Spawn(o) in ls[..k]
    && Beyond(After(cfg, ls[..k]), o, r)
  }

  lemma BeyondStays(cfg: Config, ls: seq<Label>, s: State, l: Label, o: nat, r: nat)
    requires AllEvidence(cfg, ls, s) && Enabled(cfg, s, l) && Beyond(s, o, r) && l != Spawn(o)
    ensures Beyond(Apply(cfg, s, l), o, r)
  {
    StepHeap(cfg, s, l);
    if l.Act? && l.o == o {
      ActionsClimb(cfg, s.store.heap[o], s.handlers[o], l.action);
    }
  }

  lemma PastStep(cfg: Config, ls: seq<Label>, k: nat, o: nat, r: nat)
    requires Run(cfg, ls) && k < |ls| && Past(cfg, ls, k, o, r)
    ensures Past(cfg, ls, k + 1, o, r)
  {
    RunPrefix(cfg, ls, k);
    RunEvidence(cfg, ls[..k]);
    NoSecondSpawn(cfg, ls[..k], o);
    BeyondStays(cfg, ls[..k], After(cfg, ls[..k]), ls[k], o, r);
    assert forall l | l in ls[..k] :: l in ls[..k + 1];
  }

  lemma {:induction false} PastStays(cfg: Config, ls: seq<Label>, i: nat, j: nat, o: nat, r: nat)
    requires Run(cfg, ls) && i <= j <= |ls| && Past(cfg, ls, i, o, r)
    ensures Past(cfg, ls, j, o, r)
    decreases j - i
  {
    if i < j {
      PastStep(cfg, ls, i, o, r);
      PastStays(cfg, ls, i + 1, j, o, r);
    }
  }

  /** These outcomes skip everything up to this rank. */
  function SkippedRank(a: Action): nat {
    match a
    case NodeReady(Ready) => 1
    case ResolveName(None) => 12
    case CordonDrain(true) => 6
    case RemoveFailed => 7
    case Complete(false) => 11
    case _ => ActionRank(a)
  }

  lemma SkipsAhead(cfg: Config, e: Event, pc: HandlerPc, a: Action)
    requires InPlace(e, pc) && CanAct(cfg, e, pc, a) && !a.Release?
    ensures SkippedRank(a) < Rank(e.kind.AsgLaunch?, NextPc(cfg, e, pc, a))
  {
  }

  lemma ActPasses(cfg: Config, ls: seq<Label>, s: State, o: nat, a: Action)
    requires AllEvidence(cfg, ls, s) && Enabled(cfg, s, Act(o, a))
    ensures Beyond(Apply(cfg, s, Act(o, a)), o, SkippedRank(a))
  {
    if !a.Release? {
      SkipsAhead(cfg, s.store.heap[o], s.handlers[o], a);
    }
    StepHeap(cfg, s, Act(o, a));
  }

  lemma ActionPasses(cfg: Config, ls: seq<Label>, i: nat)
    requires Run(cfg, ls) && i < |ls| && ls[i].Act?
    ensures Past(cfg, ls, i + 1, ls[i].o, SkippedRank(ls[i].action))
  {
    RunPrefix(cfg, ls, i);
    RunEvidence(cfg, ls[..i]);
    HandlersAreSpawned(cfg, ls[..i]);
    ActPasses(cfg, ls[..i], After(cfg, ls[..i]), ls[i].o, ls[i].action);
    assert ls[..i + 1] == ls[..i] + [ls[i]];
  }

  lemma ActionHappensAtItsRank(cfg: Config, ls: seq<Label>, j: nat, r: nat)
    requires Run(cfg, ls) && j < |ls| && ls[j].Act? && Past(cfg, ls, j, ls[j].o, r)
    ensures r < ActionRank(ls[j].action)
  {
    EnabledAt(cfg, ls, j);
    RunEvidence(cfg, ls[..j]);
    var s, o := After(cfg, ls[..j]), ls[j].o;
    ActionsClimb(cfg, s.store.heap[o], s.handlers[o], ls[j].action);
  }

  /**
   One event object's handler steps come in strictly rising rank over the whole run, and an
   outcome that skips steps has none of them after it.
   */
  lemma StepsInOrder(cfg: Config, ls: seq<Label>, i: nat, j: nat)
    requires Run(cfg, ls) && i < j < |ls| && ls[i].Act? && ls[j].Act? && ls[i].o == ls[j].o
    ensures ActionRank(ls[i].action) <= SkippedRank(ls[i].action) < ActionRank(ls[j].action)
  {
    ActionPasses(cfg, ls, i);
    PastStays(cfg, ls, i + 1, j, ls[i].o, SkippedRank(ls[i].action));
    ActionHappensAtItsRank(cfg, ls, j, SkippedRank(ls[i].action));
  }

  /**
   For each event object the heartbeat is started at most once and each of its two channels
   is closed at most once, also when a failed drain is followed by the post-drain task.
   */
  lemma ChannelsClosedOnce(cfg: Config, ls: seq<Label>, i: nat, j: nat, o: nat, a: Action)
    requires Run(cfg, ls) && i <= j < |ls|
    requires a == PreDrain || a == CancelTask || a == CloseStop
    requires ls[i] == Act(o, a) == ls[j]
    ensures i == j
  {
    if i < j {
      StepsInOrder(cfg, ls, i, j);
    }
  }

  /** Only events that own heartbeat channels ever close one. */
  lemma ClosersOwnChannels(cfg: Config, ls: seq<Label>, i: nat)
    requires Run(cfg, ls) && i < |ls| && ls[i].Act? && (ls[i].action.CancelTask? || ls[i].action.CloseStop?)
    ensures Run(cfg, ls[..i]) && ls[i].o in After(cfg, ls[..i]).store.heap
    ensures HasChannels(After(cfg, ls[..i]).store.heap[ls[i].o])
  {
    EnabledAt(cfg, ls, i);
    RunEvidence(cfg, ls[..i]);
  }

  /** A handler looks its node up, and drains it, once. */
  lemma SameOutcome(cfg: Config, ls: seq<Label>, i: nat, j: nat)
    requires Run(cfg, ls) && i < |ls| && j < |ls| && ls[i].Act? && ls[j].Act? && ls[i].o == ls[j].o
    requires (ls[i].action.FetchLabels? && ls[j].action.FetchLabels?)
          || (ls[i].action.CordonDrain? && ls[j].action.CordonDrain?)
    ensures i == j
  {
    if i < j {
      StepsInOrder(cfg, ls, i, j);
    } else if j < i {
      StepsInOrder(cfg, ls, j, i);
    }
  }

  lemma DrainIsNotLaunch(cfg: Config, ls: seq<Label>, i: nat)
    requires Run(cfg, ls) && i < |ls| && ls[i].Act? && ls[i].action.FetchLabels?
    ensures ls[i].o in After(cfg, ls).store.heap && !After(cfg, ls).store.heap[ls[i].o].kind.AsgLaunch?
  {
    EnabledAt(cfg, ls, i);
    RunEvidence(cfg, ls[..i]);
    EventNeverChanges(cfg, ls, i, ls[i].o);
  }

  lemma DeletionEarned(cfg: Config, ls: seq<Label>, j: nat) returns (w: nat)
    requires Run(cfg, ls) && j < |ls| && ls[j].Act? && ls[j].action.DeleteMessage?
    requires ls[j].o in After(cfg, ls).store.heap && !After(cfg, ls).store.heap[ls[j].o].kind.AsgLaunch?
    ensures w < |ls| && (ls[w] == Act(ls[j].o, CordonDrain(true)) || ls[w] == Act(ls[j].o, FetchLabels(false)))
  {
    EnabledAt(cfg, ls, j);
    RunEvidence(cfg, ls[..j]);
    EventNeverChanges(cfg, ls, j, ls[j].o);
    var o := ls[j].o;
    w :| 0 <= w < |ls[..j]| && (ls[..j][w] == Act(o, CordonDrain(true)) || ls[..j][w] == Act(o, FetchLabels(false)));
  }

  /** A drain that failed on a node that was found never gets its message deleted. */
  lemma FailedDrainKeepsMessage(cfg: Config, ls: seq<Label>, i: nat, k: nat, j: nat, o: nat)
    requires Run(cfg, ls) && i < |ls| && k < |ls| && j < |ls|
    requires ls[i] == Act(o, FetchLabels(true)) && ls[k] == Act(o, CordonDrain(false))
    ensures ls[j] != Act(o, DeleteMessage)
  {
    if ls[j] == Act(o, DeleteMessage) {
      DrainIsNotLaunch(cfg, ls, i);
      var w := DeletionEarned(cfg, ls, j);
      if ls[w].action.FetchLabels? {
        SameOutcome(cfg, ls, i, w);
      } else {
        SameOutcome(cfg, ls, k, w);
      }
    }
  }

  // ---- no goroutine blocks another for good

  /** A handler in flight can always take its next step. */
  lemma HandlerNeverStuck(cfg: Config, ls: seq<Label>, o: nat) returns (a: Action)
    requires Run(cfg, ls) && o in After(cfg, ls).handlers
    ensures Run(cfg, ls + [Act(o, a)])
  {
    RunInvariant(cfg, ls);
    var s := After(cfg, ls);
    var e := s.store.heap[o];
    a := match s.handlers[o]
      case LaunchCheck => if e.kind.AsgLaunch? then NodeReady(NotReady) else SkipLaunch
      case LaunchRemove => RemoveLaunch
      case LaunchResolve => LaunchName(true)
      case DrainEntry => if e.kind.AsgLaunch? then SkipDrain else ResolveName(Some(e.node))
      case Labels(_) => FetchLabels(true)
      case PreDraining(_, _) => PreDrain
      case Draining(_, _) => CordonDrain(true)
      case Cancelling(_) => CancelTask
      case Removing(_) => RemoveFailed
      case Marking(_, _) => MarkProcessed
      case PostGate(_, _) => DecidePost
      case Completing(_) => Complete(true)
      case ClosingStop(_) => CloseStop
      case Deleting(_) => DeleteMessage
      case Tainting => TaintOutOfService(true)
      case Releasing => Release;
    assert Enabled(cfg, s, Act(o, a));
    assert (ls + [Act(o, a)])[..|ls|] == ls;
  }

  lemma AdderNeverStuck(cfg: Config, ls: seq<Label>) returns (l: Label)
    requires Run(cfg, ls) && !After(cfg, ls).adder.AdderIdle?
    ensures (l.AddCheck? || l.AddInsert?) && Enabled(cfg, After(cfg, ls), l)
  {
    RunInvariant(cfg, ls);
    l := if After(cfg, ls).adder.Received? then AddCheck else AddInsert(After(cfg, ls).adder.o);
  }

  lemma DispatcherNeverStuck(cfg: Config, ls: seq<Label>, now: int) returns (l: Label)
    requires Run(cfg, ls)
    ensures Enabled(cfg, After(cfg, ls), l) && Apply(cfg, After(cfg, ls), l).dispatcher != After(cfg, ls).dispatcher
  {
    RunInvariant(cfg, ls);
    var s := After(cfg, ls);
    match s.dispatcher
    case DispatcherIdle => l := Sweep;
    case Scanning =>
      var ids := DrainableIds(s.store, now, cfg.gracePeriod);
      if ids == {} {
        l := PickNone(now);
      } else {
        var id :| id in ids;
        l := Pick(s.store.table[id], now);
      }
    case Picked(o) => l := if s.slots < cfg.workers then TakeSlot(o) else Busy(o);
    case Slotted(o) => l := SetInProgress(o);
    case Started(o) => l := Spawn(o);
  }

  lemma ExtendRun(cfg: Config, ls: seq<Label>, l: Label)
    requires Run(cfg, ls) && Enabled(cfg, After(cfg, ls), l)
    ensures Run(cfg, ls + [l]) && After(cfg, ls + [l]) == Apply(cfg, After(cfg, ls), l)
  {
    assert (ls + [l])[..|ls|] == ls;
  }

  /** A slotted event is dispatched in the dispatcher's next two steps. */
  lemma SlottedGetsDispatched(cfg: Config, ls: seq<Label>, o: nat)
    requires Run(cfg, ls) && After(cfg, ls).dispatcher == Slotted(o)
    ensures Run(cfg, ls + [SetInProgress(o), Spawn(o)])
    ensures o in After(cfg, ls + [SetInProgress(o), Spawn(o)]).handlers
  {
    assert DispatcherOwns(After(cfg, ls)) by { RunInvariant(cfg, ls); }
    ExtendRun(cfg, ls, SetInProgress(o));
    ExtendRun(cfg, ls + [SetInProgress(o)], Spawn(o));
    assert ls + [SetInProgress(o)] + [Spawn(o)] == ls + [SetInProgress(o), Spawn(o)];
  }

  /** With a slot free, a picked event is dispatched in the dispatcher's next three steps. */
  lemma PickedGetsDispatched(cfg: Config, ls: seq<Label>, o: nat)
    requires Run(cfg, ls) && After(cfg, ls).dispatcher == Picked(o) && After(cfg, ls).slots < cfg.workers
    ensures Run(cfg, ls + [TakeSlot(o), SetInProgress(o), Spawn(o)])
    ensures o in After(cfg, ls + [TakeSlot(o), SetInProgress(o), Spawn(o)]).handlers
  {
    ExtendRun(cfg, ls, TakeSlot(o));
    SlottedGetsDispatched(cfg, ls + [TakeSlot(o)], o);
    assert ls + [TakeSlot(o)] + [SetInProgress(o), Spawn(o)] == ls + [TakeSlot(o), SetInProgress(o), Spawn(o)];
  }

  /** The sweep before a scan costs no drainable event its dispatch: left alone with a free slot,
      an idle dispatcher can start a handler for any of them. */
  lemma DrainableGetsDispatched(cfg: Config, ls: seq<Label>, id: string, now: int)
    requires Run(cfg, ls) && After(cfg, ls).dispatcher.DispatcherIdle? && After(cfg, ls).slots < cfg.workers
    requires id in DrainableIds(After(cfg, ls).store, now, cfg.gracePeriod)
    ensures var o := After(cfg, ls).store.table[id];
      var more := [Sweep, Pick(o, now)] + [TakeSlot(o), SetInProgress(o), Spawn(o)];
      Run(cfg, ls + more) && o in After(cfg, ls + more).handlers
  {
    var s := After(cfg, ls);
    var o := s.store.table[id];
    CleanKeepsDrainable(s.store, now, cfg.gracePeriod, "");
    ExtendRun(cfg, ls, Sweep);
    var t := After(cfg, ls + [Sweep]);
    assert id in DrainableIds(t.store, now, cfg.gracePeriod) && t.store.table[id] == o;
    ExtendRun(cfg, ls + [Sweep], Pick(o, now));
    PickedGetsDispatched(cfg, ls + [Sweep] + [Pick(o, now)], o);
    assert ls + [Sweep] + [Pick(o, now)] + [TakeSlot(o), SetInProgress(o), Spawn(o)]
        == ls + ([Sweep, Pick(o, now)] + [TakeSlot(o), SetInProgress(o), Spawn(o)]);
  }

  /** The queue monitor waits for nothing but the adder. */
  lemma MonitorWaitsOnlyForAdder(cfg: Config, ls: seq<Label>) returns (l: Label)
    requires Run(cfg, ls) && After(cfg, ls).monitor.Processing? && After(cfg, ls).adder.AdderIdle?
    ensures (l.NextWrapper? || l.DeleteDropped? || l.KeepReceipt?) && Enabled(cfg, After(cfg, ls), l)
  {
    RunEvidence(cfg, ls);
    var m := After(cfg, ls).monitor;
    l := if m.next < |m.ws| then NextWrapper
         else if m.drops == |m.ws| then DeleteDropped(m.r) else KeepReceipt(m.r);
  }
}
