/**
 The interruption pipeline as a transition system at lock granularity
 (cmd/node-termination-handler.go, pkg/interruptioneventstore, pkg/interruptionevent,
 pkg/monitor/sqsevent).

 A label names one atomic step together with everything the environment chooses in it, so
 a run is a sequence of labels and `After` computes the state it leads to.  The goroutines
 are the queue monitor, the single adder, the cancellation watcher, the single dispatcher
 and one handler per dispatched event object.
 */
module Pipeline {
  import opened Wrappers
  import opened InterruptionEvents
  import opened EventStoreSpec
  import opened QueueReceipt

  datatype Config = Config(
    workers: nat, checkIfManaged: bool, deleteIfNodeNotFound: bool, useProviderId: bool,
    heartbeats: bool, outOfServiceTaint: bool, gracePeriod: int)

  datatype MonitorPc = MonitorIdle | Processing(r: nat, ws: seq<Wrapper>, next: nat, drops: nat)
  datatype AdderPc = AdderIdle | Received(o: nat) | Checked(o: nat)
  datatype DispatcherPc = DispatcherIdle | Scanning | Picked(o: nat) | Slotted(o: nat) | Started(o: nat)

  /** Where a handler stands: the launch handler first, the drain handler second. */
  datatype HandlerPc =
    | LaunchCheck | LaunchRemove | LaunchResolve
    | DrainEntry
    | Labels(node: string)
    | PreDraining(node: string, found: bool)
    | Draining(node: string, found: bool)
    | Cancelling(found: bool)
    | Removing(found: bool)
    | Marking(node: string, found: bool)
    | PostGate(found: bool, drained: bool)
    | Completing(drained: bool) | ClosingStop(drained: bool) | Deleting(drained: bool)
    | Tainting
    | Releasing

  datatype Readiness = ReadyError | NotReady | Ready

  datatype Action =
    | SkipLaunch | NodeReady(readiness: Readiness) | RemoveLaunch | LaunchName(ok: bool)
    | SkipDrain | ResolveName(name: Option<string>) | FetchLabels(found: bool)
    | PreDrain | CordonDrain(ok: bool) | CancelTask | RemoveFailed | MarkProcessed
    | DecidePost | Complete(ok: bool) | CloseStop | DeleteMessage | TaintOutOfService(ok: bool) | Release

  datatype Label =
    | Receive(r: nat, ws: seq<Wrapper>) | TestNotification(r: nat)
    | NextWrapper | DeleteDropped(r: nat) | KeepReceipt(r: nat)
    | Arrive(draft: Draft)
    | AddCheck | AddInsert(o: nat)
    | WatcherCancel(id: string) | WatcherDecide(node: string, uncordon: bool) | IgnoreId(id: string)
    | Sweep | Pick(o: nat, now: int) | PickNone(now: int)
    | TakeSlot(o: nat) | Busy(o: nat) | SetInProgress(o: nat) | Spawn(o: nat)
    | Act(o: nat, action: Action)

  datatype Snapshot = Snapshot(
    store: StoreState<nat>, nextObject: nat, nextReceipt: nat,
    monitor: MonitorPc, adder: AdderPc, dispatcher: DispatcherPc,
    handlers: map<nat, HandlerPc>, slots: nat)

  const INITIAL := Snapshot(StoreState(map[], map[], {}, false, 0), 0, 0,
                         MonitorIdle, AdderIdle, DispatcherIdle, map[], 0)

  ghost predicate StoreOk(s: Snapshot) {
    && WellFormed(s.store)
    && forall o | o in s.store.heap :: o < s.nextObject
  }

  /** Every step keeps the entries pointing at live objects that carry their ID. */
  type State = s: Snapshot | StoreOk(s) witness INITIAL

  // ---- tasks attached to an event by the monitor that built it

  predicate HasPostTask(e: Event) { e.receipt.Some? }

  /** Only ASG termination events from the queue carry heartbeat channels. */
  predicate HasChannels(e: Event) { e.receipt.Some? && e.kind.AsgLifecycle? }

  /** A launch goes on to the drain handler; a drained node may get the out-of-service taint. */
  function AfterPost(cfg: Config, e: Event, drained: bool): HandlerPc {
    if e.kind.AsgLaunch? then DrainEntry
    else if drained && cfg.outOfServiceTaint then Tainting else Releasing
  }

  // ---- one handler

  predicate CanAct(cfg: Config, e: Event, pc: HandlerPc, a: Action) {
    match pc
    case LaunchCheck => if e.kind.AsgLaunch? then a.NodeReady? else a.SkipLaunch?
    case LaunchRemove => a.RemoveLaunch?
    case LaunchResolve => a.LaunchName? && (a.ok || cfg.useProviderId)
    case DrainEntry =>
      if e.kind.AsgLaunch? then a.SkipDrain?
      else a.ResolveName? && (cfg.useProviderId || a.name == Some(e.node))
    case Labels(_) => a.FetchLabels?
    case PreDraining(_, _) => a.PreDrain?
    case Draining(_, _) => a.CordonDrain?
    case Cancelling(_) => a.CancelTask?
    case Removing(_) => a.RemoveFailed?
    case Marking(_, _) => a.MarkProcessed?
    case PostGate(_, _) => a.DecidePost?
    case Completing(_) => a.Complete?
    case ClosingStop(_) => a.CloseStop?
    case Deleting(_) => a.DeleteMessage?
    case Tainting => a.TaintOutOfService?
    case Releasing => a.Release?
  }

  function NextPc(cfg: Config, e: Event, pc: HandlerPc, a: Action): HandlerPc
    requires CanAct(cfg, e, pc, a)
  {
    match pc
    case LaunchCheck =>
      if !e.kind.AsgLaunch? then DrainEntry
      else if a.readiness.Ready? then LaunchResolve else LaunchRemove
    case LaunchRemove => DrainEntry
    case LaunchResolve => if a.ok && HasPostTask(e) then Completing(false) else DrainEntry
    case DrainEntry =>
      if e.kind.AsgLaunch? || a.name.None? then Releasing else Labels(a.name.value)
    case Labels(node) => PreDraining(node, a.found)
    case PreDraining(node, found) => Draining(node, found)
    case Draining(node, found) =>
      if a.ok then Marking(node, found)
      else if HasChannels(e) then Cancelling(found) else Removing(found)
    case Cancelling(found) => Removing(found)
    case Removing(found) => PostGate(found, false)
    case Marking(_, found) => PostGate(found, true)
    case PostGate(found, drained) =>
      if !(HasPostTask(e) && (drained || (!found && cfg.deleteIfNodeNotFound))) then AfterPost(cfg, e, drained)
      else if e.kind.AsgLifecycle? then Completing(drained) else Deleting(drained)
    case Completing(drained) =>
      if !a.ok then AfterPost(cfg, e, drained)
      else if e.kind.AsgLifecycle? then ClosingStop(drained) else Deleting(drained)
    case ClosingStop(drained) => Deleting(drained)
    case Deleting(drained) => AfterPost(cfg, e, drained)
    case Tainting => Releasing
    case Releasing => Releasing
  }

  function ActOnStore<O(==)>(s: StoreState<O>, e: Event, pc: HandlerPc): StoreState<O> {
    match pc
    case LaunchRemove => EventStoreSpec.Cancel(s, e.eventId)
    case Removing(_) => EventStoreSpec.Cancel(s, e.eventId)
    case Marking(node, _) => MarkNode(s, node)
    case _ => s
  }

  // ---- the whole system

  function ReceiveEvent(s: State, d: Draft, receipt: Option<nat>): State {
    s.(store := s.store.(heap := s.store.heap[s.nextObject := d.ToEvent(receipt)]),
       nextObject := s.nextObject + 1,
       adder := Received(s.nextObject))
  }

  ghost predicate Enabled(cfg: Config, s: State, l: Label) {
    match l
    case Receive(r, _) => s.monitor.MonitorIdle? && r == s.nextReceipt
    case TestNotification(r) => s.monitor.MonitorIdle? && r == s.nextReceipt
    case NextWrapper =>
      && s.monitor.Processing? && s.monitor.next < |s.monitor.ws|
      && (Judge(cfg.checkIfManaged, s.monitor.ws[s.monitor.next]) == Send ==> s.adder.AdderIdle?)
    case DeleteDropped(r) =>
      && s.monitor.Processing? && s.monitor.r == r
      && s.monitor.next == |s.monitor.ws| && s.monitor.drops == |s.monitor.ws|
    case KeepReceipt(r) =>
      && s.monitor.Processing? && s.monitor.r == r
      && s.monitor.next == |s.monitor.ws| && s.monitor.drops != |s.monitor.ws|
    case Arrive(d) => s.adder.AdderIdle? && !d.kind.AsgLaunch?
    case AddCheck => s.adder.Received? && s.adder.o in s.store.heap
    case AddInsert(o) => s.adder == Checked(o) && o in s.store.heap
    case WatcherCancel(_) => true
    case WatcherDecide(node, uncordon) => uncordon <==> ShouldUncordon(s.store, node)
    case IgnoreId(_) => true
    case Sweep => s.dispatcher.DispatcherIdle?
    case Pick(o, now) =>
      && s.dispatcher.Scanning?
      && exists id :: id in DrainableIds(s.store, now, cfg.gracePeriod) && s.store.table[id] == o
    case PickNone(now) => s.dispatcher.Scanning? && DrainableIds(s.store, now, cfg.gracePeriod) == {}
    case TakeSlot(o) => s.dispatcher == Picked(o) && s.slots < cfg.workers
    case Busy(o) => s.dispatcher == Picked(o) && s.slots >= cfg.workers
    case SetInProgress(o) => s.dispatcher == Slotted(o) && o in s.store.heap
    case Spawn(o) => s.dispatcher == Started(o)
    case Act(o, a) =>
      && o in s.handlers && o in s.store.heap && (a.Release? ==> s.slots > 0)
      && CanAct(cfg, s.store.heap[o], s.handlers[o], a)
  }

  ghost function Apply(cfg: Config, s: State, l: Label): State
    requires Enabled(cfg, s, l)
  {
    match l
    case Receive(r, ws) => s.(monitor := Processing(r, ws, 0, 0), nextReceipt := r + 1)
    case TestNotification(r) => s.(nextReceipt := r + 1)
    case NextWrapper =>
      var m := s.monitor;
      var w := m.ws[m.next];
      (match Judge(cfg.checkIfManaged, w)
       case Drop => s.(monitor := m.(next := m.next + 1, drops := m.drops + 1))
       case Fail => s.(monitor := m.(next := m.next + 1))
       case Send => ReceiveEvent(s, w.event.value.draft, Some(m.r)).(monitor := m.(next := m.next + 1)))
    case DeleteDropped(_) => s.(monitor := MonitorIdle)
    case KeepReceipt(_) => s.(monitor := MonitorIdle)
    case Arrive(d) => ReceiveEvent(s, d, None)
    case AddCheck =>
      if s.store.heap[s.adder.o].eventId in s.store.table then s.(adder := AdderIdle)
      else s.(adder := Checked(s.adder.o))
    case AddInsert(o) => s.(store := Insert(s.store, o, s.store.heap[o]), adder := AdderIdle)
    case WatcherCancel(id) => s.(store := EventStoreSpec.Cancel(s.store, id))
    case WatcherDecide(_, _) => s
    case IgnoreId(id) => s.(store := Ignore(s.store, id))
    case Sweep => s.(store := Clean(s.store), dispatcher := Scanning)
    case Pick(o, _) => s.(dispatcher := Picked(o))
    case PickNone(_) => s.(dispatcher := DispatcherIdle)
    case TakeSlot(o) => s.(dispatcher := Slotted(o), slots := s.slots + 1)
    case Busy(_) => s.(dispatcher := DispatcherIdle)
    case SetInProgress(o) => s.(dispatcher := Started(o), store := Start(s.store, o))
    case Spawn(o) => s.(dispatcher := DispatcherIdle, handlers := s.handlers[o := LaunchCheck])
    case Act(o, a) =>
      var e, pc := s.store.heap[o], s.handlers[o];
      if a.Release? then s.(handlers := s.handlers - {o}, slots := s.slots - 1)
      else s.(store := ActOnStore(s.store, e, pc), handlers := s.handlers[o := NextPc(cfg, e, pc, a)])
  }

  ghost function Execute(cfg: Config, ls: seq<Label>): Option<State>
    decreases |ls|
  {
    if ls == [] then Some(INITIAL)
    else
      var n := |ls| - 1;
      var before := Execute(cfg, ls[..n]);
      if before.Some? && Enabled(cfg, before.value, ls[n]) then Some(Apply(cfg, before.value, ls[n])) else None
  }

  /** Each label was enabled where it was taken. */
  ghost predicate Run(cfg: Config, ls: seq<Label>) { Execute(cfg, ls).Some? }

  ghost function After(cfg: Config, ls: seq<Label>): State
    requires Run(cfg, ls)
  {
    Execute(cfg, ls).value
  }

  lemma {:induction false} RunPrefix(cfg: Config, ls: seq<Label>, i: nat)
    requires Run(cfg, ls) && i <= |ls|
    ensures Run(cfg, ls[..i])
    ensures i < |ls| ==>
      && Enabled(cfg, After(cfg, ls[..i]), ls[i])
      && Run(cfg, ls[..i + 1])
      && After(cfg, ls[..i + 1]) == Apply(cfg, After(cfg, ls[..i]), ls[i])
    decreases |ls|
  {
    var n := |ls| - 1;
    if i >= n {
      assert ls[..|ls|] == ls;
    } else {
      RunPrefix(cfg, ls[..n], i);
      assert ls[..n][..i] == ls[..i] && ls[..n][..i + 1] == ls[..i + 1];
    }
  }

  lemma RunTo(cfg: Config, ls: seq<Label>, i: nat)
    requires Run(cfg, ls) && i <= |ls|
    ensures Run(cfg, ls[..i])
  {
    RunPrefix(cfg, ls, i);
  }

  lemma EnabledAt(cfg: Config, ls: seq<Label>, i: nat)
    requires Run(cfg, ls) && i < |ls|
    ensures Run(cfg, ls[..i]) && Enabled(cfg, After(cfg, ls[..i]), ls[i])
  {
    RunPrefix(cfg, ls, i);
  }
}
