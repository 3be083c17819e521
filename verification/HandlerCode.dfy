/**
 The two event handlers as the code writes them (pkg/interruptionevent/asg/launch/handler.go,
 pkg/interruptionevent/draincordon/handler.go, pkg/interruptionevent/internal/common/handler.go,
 cmd/node-termination-handler.go, processInterruptionEvent), each call returning the actions
 it takes and working on the store itself.  They are shown to take the one path of the
 pipeline's handler automaton that the outcomes of their calls allow, with its effect on the
 store.
 */
module HandlerCode {
  import opened Wrappers
  import opened InterruptionEvents
  import opened EventStoreSpec
  import opened EventStore
  import opened Pipeline

  /** What the calls made by one handler return. */
  datatype World = World(
    readiness: Readiness, name: Option<string>, labelsFound: bool, drainOk: bool, completeOk: bool, taintOk: bool)

  /** Without provider IDs the node name comes from the event itself. */
  predicate Consistent(cfg: Config, e: Event, w: World) { cfg.useProviderId || w.name == Some(e.node) }

  /** The action is one a handler takes itself and reports what its call returned. */
  predicate Reflects(w: World, a: Action) {
    match a
    case NodeReady(readiness) => readiness == w.readiness
    case LaunchName(ok) => ok == w.name.Some?
    case ResolveName(name) => name == w.name
    case FetchLabels(found) => found == w.labelsFound
    case CordonDrain(ok) => ok == w.drainOk
    case Complete(ok) => ok == w.completeOk
    case TaintOutOfService(ok) => ok == w.taintOk
    case Release => false
    case _ => true
  }

  ghost predicate AllReflect(w: World, t: seq<Action>) { forall a | a in t :: Reflects(w, a) }

  /** Where the automaton is after some actions, if it allows them. */
  function Walk(cfg: Config, e: Event, from: HandlerPc, t: seq<Action>): Option<HandlerPc> {
    if t == [] then Some(from)
    else
      var before, a := Walk(cfg, e, from, t[..|t| - 1]), t[|t| - 1];
      if before.Some? && CanAct(cfg, e, before.value, a) then Some(NextPc(cfg, e, before.value, a)) else None
  }

  /** What those actions do to the store, left alone with it. */
  ghost function StoreAfter<O>(cfg: Config, e: Event, from: HandlerPc, t: seq<Action>, s: StoreState<O>): StoreState<O> {
    if t == [] then s
    else
      var front := t[..|t| - 1];
      var before := Walk(cfg, e, from, front);
      var s' := StoreAfter(cfg, e, from, front, s);
      if before.Some? then ActOnStore(s', e, before.value) else s'
  }

  lemma StoreOne<O>(cfg: Config, e: Event, from: HandlerPc, t: seq<Action>, a: Action, s: StoreState<O>)
    requires Walk(cfg, e, from, t).Some?
    ensures StoreAfter(cfg, e, from, t + [a], s) == ActOnStore(StoreAfter(cfg, e, from, t, s), e, Walk(cfg, e, from, t).value)
  {
    assert (t + [a])[..|t|] == t;
  }

  lemma {:induction false} StoreAll<O>(cfg: Config, e: Event, from: HandlerPc, t: seq<Action>, u: seq<Action>, s: StoreState<O>)
    requires Walk(cfg, e, from, t).Some?
    ensures StoreAfter(cfg, e, from, t + u, s) == StoreAfter(cfg, e, Walk(cfg, e, from, t).value, u, StoreAfter(cfg, e, from, t, s))
  {
    if u == [] {
      assert t + u == t;
    } else {
      var n := |u| - 1;
      StoreAll(cfg, e, from, t, u[..n], s);
      WalkAll(cfg, e, from, t, u[..n]);
      assert (t + u)[..|t + u| - 1] == t + u[..n];
    }
  }

  lemma WalkOne(cfg: Config, e: Event, from: HandlerPc, t: seq<Action>, a: Action)
    requires Walk(cfg, e, from, t).Some? && CanAct(cfg, e, Walk(cfg, e, from, t).value, a)
    ensures Walk(cfg, e, from, t + [a]) == Some(NextPc(cfg, e, Walk(cfg, e, from, t).value, a))
  {
    assert (t + [a])[..|t|] == t;
  }

  lemma {:induction false} WalkAll(cfg: Config, e: Event, from: HandlerPc, t: seq<Action>, u: seq<Action>)
    requires Walk(cfg, e, from, t).Some?
    ensures Walk(cfg, e, from, t + u) == Walk(cfg, e, Walk(cfg, e, from, t).value, u)
  {
    if u == [] {
      assert t + u == t;
    } else {
      var n := |u| - 1;
      WalkAll(cfg, e, from, t, u[..n]);
      assert (t + u)[..|t + u| - 1] == t + u[..n];
    }
  }

  /** Actions true to the world lead from one place to another and take the store from s to s'. */
  ghost predicate Path<O>(cfg: Config, e: Event, w: World, from: HandlerPc, t: seq<Action>, to: HandlerPc,
                          s: StoreState<O>, s': StoreState<O>) {
    Walk(cfg, e, from, t) == Some(to) && StoreAfter(cfg, e, from, t, s) == s' && AllReflect(w, t)
  }

  lemma PathOne<O>(cfg: Config, e: Event, w: World, from: HandlerPc, t: seq<Action>, pc: HandlerPc, a: Action,
                   s: StoreState<O>, s': StoreState<O>)
    requires Path(cfg, e, w, from, t, pc, s, s') && CanAct(cfg, e, pc, a) && Reflects(w, a)
    ensures Path(cfg, e, w, from, t + [a], NextPc(cfg, e, pc, a), s, ActOnStore(s', e, pc))
  {
    WalkOne(cfg, e, from, t, a);
    StoreOne(cfg, e, from, t, a, s);
  }

  lemma PathAll<O>(cfg: Config, e: Event, w: World, from: HandlerPc, t: seq<Action>, mid: HandlerPc, u: seq<Action>, to: HandlerPc,
                   s: StoreState<O>, s': StoreState<O>, s'': StoreState<O>)
    requires Path(cfg, e, w, from, t, mid, s, s') && Path(cfg, e, w, mid, u, to, s', s'')
    ensures Path(cfg, e, w, from, t + u, to, s, s'')
  {
    WalkAll(cfg, e, from, t, u);
    StoreAll(cfg, e, from, t, u, s);
  }

  function PostStart(e: Event, drained: bool): HandlerPc {
    if e.kind.AsgLifecycle? || e.kind.AsgLaunch? then Completing(drained) else Deleting(drained)
  }

  /** The post-drain closures: ASG events complete their hook first and stop on failure. */
  method RunPostDrainTask(cfg: Config, e: Event, w: World, ghost drained: bool, ghost s: StoreState<InterruptionEvent>)
    returns (t: seq<Action>)
    requires HasPostTask(e)
    ensures Path(cfg, e, w, PostStart(e, drained), t, AfterPost(cfg, e, drained), s, s)
  {
    t := [];
    ghost var from := PostStart(e, drained);
    if e.kind.AsgLifecycle? || e.kind.AsgLaunch? {
      PathOne(cfg, e, w, from, t, from, Complete(w.completeOk), s, s);
      t := t + [Complete(w.completeOk)];
      if !w.completeOk {
        return;
      }
      if e.kind.AsgLifecycle? {
        PathOne(cfg, e, w, from, t, ClosingStop(drained), CloseStop, s, s);
        t := t + [CloseStop];
      }
    }
    PathOne(cfg, e, w, from, t, Deleting(drained), DeleteMessage, s, s);
    t := t + [DeleteMessage];
  }

  method LaunchHandleEvent(store: Store, cfg: Config, e: Event, w: World) returns (t: seq<Action>)
    requires store.Valid() && Consistent(cfg, e, w)
    modifies store
    ensures store.Valid() && store.events.Values <= old(store.events.Values)
    ensures Path(cfg, e, w, LaunchCheck, t, DrainEntry, old(store.View()), store.View())
  {
    ghost var s := store.View();
    t := [];
    if !e.kind.AsgLaunch? {
      PathOne(cfg, e, w, LaunchCheck, t, LaunchCheck, SkipLaunch, s, s);
      t := t + [SkipLaunch];
      return;
    }
    PathOne(cfg, e, w, LaunchCheck, t, LaunchCheck, NodeReady(w.readiness), s, s);
    t := t + [NodeReady(w.readiness)];
    if !w.readiness.Ready? {
      PathOne(cfg, e, w, LaunchCheck, t, LaunchRemove, RemoveLaunch, s, s);
      store.CancelInterruptionEvent(e.eventId);
      t := t + [RemoveLaunch];
      return;
    }
    PathOne(cfg, e, w, LaunchCheck, t, LaunchResolve, LaunchName(w.name.Some?), s, s);
    t := t + [LaunchName(w.name.Some?)];
    if w.name.Some? && HasPostTask(e) {
      var post := RunPostDrainTask(cfg, e, w, false, s);
      PathAll(cfg, e, w, LaunchCheck, t, Completing(false), post, DrainEntry, s, s, s);
      t := t + post;
    }
  }

  /** Everything up to and including the cordon or drain. */
  method DrainAttempt(cfg: Config, e: Event, w: World, ghost s: StoreState<InterruptionEvent>) returns (t: seq<Action>)
    requires Consistent(cfg, e, w) && !e.kind.AsgLaunch? && w.name.Some?
    ensures var node, found := w.name.value, w.labelsFound;
      Path(cfg, e, w, DrainEntry, t, NextPc(cfg, e, Draining(node, found), CordonDrain(w.drainOk)), s, s)
  {
    ghost var node, found := w.name.value, w.labelsFound;
    t := [];
    PathOne(cfg, e, w, DrainEntry, t, DrainEntry, ResolveName(w.name), s, s);
    t := t + [ResolveName(w.name)];
    PathOne(cfg, e, w, DrainEntry, t, Labels(node), FetchLabels(w.labelsFound), s, s);
    t := t + [FetchLabels(w.labelsFound)];
    PathOne(cfg, e, w, DrainEntry, t, PreDraining(node, found), PreDrain, s, s);
    t := t + [PreDrain];
    PathOne(cfg, e, w, DrainEntry, t, Draining(node, found), CordonDrain(w.drainOk), s, s);
    t := t + [CordonDrain(w.drainOk)];
  }

  /** ... and its bookkeeping in the store. */
  method DrainNode(store: Store, cfg: Config, e: Event, w: World) returns (t: seq<Action>)
    requires store.Valid() && Consistent(cfg, e, w) && !e.kind.AsgLaunch? && w.name.Some?
    modifies store, store.events.Values
    ensures store.Valid()
    ensures Path(cfg, e, w, DrainEntry, t, PostGate(w.labelsFound, w.drainOk), old(store.View()), store.View())
  {
    ghost var s, node, found := store.View(), w.name.value, w.labelsFound;
    t := DrainAttempt(cfg, e, w, s);
    if !w.drainOk {
      if HasChannels(e) {
        PathOne(cfg, e, w, DrainEntry, t, Cancelling(found), CancelTask, s, s);
        t := t + [CancelTask];
      }
      PathOne(cfg, e, w, DrainEntry, t, Removing(found), RemoveFailed, s, s);
      store.CancelInterruptionEvent(e.eventId);
      t := t + [RemoveFailed];
    } else {
      PathOne(cfg, e, w, DrainEntry, t, Marking(node, found), MarkProcessed, s, s);
      store.MarkAllAsProcessed(w.name.value);
      t := t + [MarkProcessed];
    }
  }

  method DrainHandleEvent(store: Store, cfg: Config, e: Event, w: World) returns (t: seq<Action>)
    requires store.Valid() && Consistent(cfg, e, w)
    modifies store, store.events.Values
    ensures store.Valid()
    ensures Path(cfg, e, w, DrainEntry, t, Releasing, old(store.View()), store.View())
  {
    ghost var s := store.View();
    t := [];
    if e.kind.AsgLaunch? {
      PathOne(cfg, e, w, DrainEntry, t, DrainEntry, SkipDrain, s, s);
      t := t + [SkipDrain];
      return;
    }
    if w.name.None? {
      PathOne(cfg, e, w, DrainEntry, t, DrainEntry, ResolveName(None), s, s);
      t := t + [ResolveName(None)];
      return;
    }
    t := DrainNode(store, cfg, e, w);
    var rest := AfterDrain(cfg, e, w, store.View());
    PathAll(cfg, e, w, DrainEntry, t, PostGate(w.labelsFound, w.drainOk), rest, Releasing, s, store.View(), store.View());
    t := t + rest;
  }

  /** The post-drain task, if it is due, and the out-of-service taint. */
  method AfterDrain(cfg: Config, e: Event, w: World, ghost s: StoreState<InterruptionEvent>) returns (t: seq<Action>)
    requires !e.kind.AsgLaunch?
    ensures Path(cfg, e, w, PostGate(w.labelsFound, w.drainOk), t, Releasing, s, s)
  {
    ghost var from := PostGate(w.labelsFound, w.drainOk);
    t := [];
    PathOne(cfg, e, w, from, t, from, DecidePost, s, s);
    t := t + [DecidePost];
    if (w.drainOk || (!w.labelsFound && cfg.deleteIfNodeNotFound)) && HasPostTask(e) {
      var post := RunPostDrainTask(cfg, e, w, w.drainOk, s);
      PathAll(cfg, e, w, from, t, PostStart(e, w.drainOk), post, AfterPost(cfg, e, w.drainOk), s, s, s);
      t := t + post;
    }
    if w.drainOk && cfg.outOfServiceTaint {
      PathOne(cfg, e, w, from, t, Tainting, TaintOutOfService(w.taintOk), s, s);
      t := t + [TaintOutOfService(w.taintOk)];
    }
  }

  /** From the automaton's entry to its exit, true to the world, releasing once. */
  ghost predicate CompletePath(cfg: Config, e: Event, w: World, t: seq<Action>) {
    && t != [] && t[|t| - 1] == Release && AllReflect(w, t[..|t| - 1])
    && Walk(cfg, e, LaunchCheck, t[..|t| - 1]) == Some(Releasing)
  }

  /**
   Both handlers in turn on the store itself, then the slot: a complete path of the automaton,
   whatever happens, with exactly the effect on the store that the pipeline gives it.
   */
  method ProcessInterruptionEvent(store: Store, cfg: Config, e: Event, w: World) returns (t: seq<Action>)
    requires store.Valid() && Consistent(cfg, e, w)
    modifies store, store.events.Values
    ensures store.Valid() && CompletePath(cfg, e, w, t)
    ensures store.View() == StoreAfter(cfg, e, LaunchCheck, t[..|t| - 1], old(store.View()))
  {
    ghost var s := store.View();
    var launch := LaunchHandleEvent(store, cfg, e, w);
    ghost var s' := store.View();
    var drain := DrainHandleEvent(store, cfg, e, w);
    PathAll(cfg, e, w, LaunchCheck, launch, DrainEntry, drain, Releasing, s, s', store.View());
    t := launch + drain + [Release];
    assert t[..|t| - 1] == launch + drain;
  }

  lemma {:induction false} PrefixesWalk(cfg: Config, e: Event, from: HandlerPc, t: seq<Action>, k: nat)
    requires k < |t| && Walk(cfg, e, from, t).Some?
    ensures Walk(cfg, e, from, t[..k]).Some?
    ensures CanAct(cfg, e, Walk(cfg, e, from, t[..k]).value, t[k])
    decreases |t|
  {
    var n := |t| - 1;
    if k < n {
      PrefixesWalk(cfg, e, from, t[..n], k);
      assert t[..n][..k] == t[..k];
    }
  }

  /** The automaton has no choice of its own: where it stands, the world fixes the action. */
  lemma WorldDecides(cfg: Config, e: Event, w: World, pc: HandlerPc, a: Action, b: Action)
    requires CanAct(cfg, e, pc, a) && CanAct(cfg, e, pc, b)
    requires (a.Release? || Reflects(w, a)) && (b.Release? || Reflects(w, b))
    ensures a == b
  {
  }

  lemma PathStep(cfg: Config, e: Event, w: World, t: seq<Action>, k: nat)
    requires CompletePath(cfg, e, w, t) && k < |t|
    ensures Walk(cfg, e, LaunchCheck, t[..k]).Some?
    ensures CanAct(cfg, e, Walk(cfg, e, LaunchCheck, t[..k]).value, t[k])
    ensures if k == |t| - 1 then t[k].Release? else Reflects(w, t[k])
  {
    var front := t[..|t| - 1];
    if k < |front| {
      PrefixesWalk(cfg, e, LaunchCheck, front, k);
      assert front[..k] == t[..k] && front[k] in front;
    }
  }

  lemma {:induction false} SamePrefix(cfg: Config, e: Event, w: World, t: seq<Action>, u: seq<Action>, k: nat)
    requires CompletePath(cfg, e, w, t) && CompletePath(cfg, e, w, u) && k <= |t| && k <= |u|
    ensures t[..k] == u[..k]
  {
    if k > 0 {
      SamePrefix(cfg, e, w, t, u, k - 1);
      PathStep(cfg, e, w, t, k - 1);
      PathStep(cfg, e, w, u, k - 1);
      WorldDecides(cfg, e, w, Walk(cfg, e, LaunchCheck, t[..k - 1]).value, t[k - 1], u[k - 1]);
    }
  }

  /** The world leaves exactly one complete path, so the code takes the only one there is. */
  lemma PathUnique(cfg: Config, e: Event, w: World, t: seq<Action>, u: seq<Action>)
    requires CompletePath(cfg, e, w, t) && CompletePath(cfg, e, w, u)
    ensures t == u
  {
    var n := if |t| <= |u| then |t| else |u|;
    SamePrefix(cfg, e, w, t, u, n);
    PathStep(cfg, e, w, t, n - 1);
    PathStep(cfg, e, w, u, n - 1);
    assert t[n - 1] == t[..n][n - 1] == u[..n][n - 1] == u[n - 1];
  }
}
