/**
 How handlers end: after how many steps, what they leave behind in the store, and whether they
 leave a heartbeat running.
 */
module PipelineExits {
  import opened Wrappers
  import opened InterruptionEvents
  import opened Pipeline
  import opened PipelineDispatch
  import opened PipelineHandlers

  // ---- every handler gives its slot back

  /** The most steps a handler can have behind it. */
  function Behind(launch: bool, pc: HandlerPc): nat {
    match pc
    case LaunchCheck => 0
    case LaunchRemove => 1
    case LaunchResolve => 1
    case DrainEntry => if launch then 4 else 1
    case Labels(_) => 2
    case PreDraining(_, _) => 3
    case Draining(_, _) => 4
    case Cancelling(_) => 5
    case Removing(_) => 6
    case Marking(_, _) => 5
    case PostGate(_, drained) => if drained then 6 else 7
    case Completing(drained) => if launch then 2 else if drained then 7 else 8
    case ClosingStop(drained) => if drained then 8 else 9
    case Deleting(drained) => if launch then 3 else if drained then 9 else 10
    case Tainting => 10
    case Releasing => 11
  }

  const MOST_STEPS: nat := 12

  /** How many steps the handler of `o` has taken. */
  function OwnSteps(ls: seq<Label>, o: nat): nat {
    if ls == [] then 0
    else OwnSteps(ls[..|ls| - 1], o) + (if ls[|ls| - 1].Act? && ls[|ls| - 1].o == o then 1 else 0)
  }

  lemma BehindGrows(cfg: Config, ls: seq<Label>, o: nat, e: Event, pc: HandlerPc, a: Action)
    requires Evidence(cfg, ls, o, e, pc) && CanAct(cfg, e, pc, a) && !a.Release?
    ensures Behind(e.kind.AsgLaunch?, pc) < Behind(e.kind.AsgLaunch?, NextPc(cfg, e, pc, a))
  {
  }

  ghost predicate StepsInv(ls: seq<Label>, s: State, o: nat) {
    if o in s.handlers then
      o in s.store.heap && OwnSteps(ls, o) <= Behind(s.store.heap[o].kind.AsgLaunch?, s.handlers[o])
    else if Spawn(o) in ls then OwnSteps(ls, o) <= MOST_STEPS && Act(o, Release) in ls
    else OwnSteps(ls, o) == 0
  }

  /** Nobody else moves or counts for a handler. */
  lemma OtherStepKeepsSteps(cfg: Config, ls: seq<Label>, s: State, l: Label, o: nat)
    requires HandlersOwn(s) && StepsInv(ls, s, o) && Enabled(cfg, s, l)
    requires l != Spawn(o) && !(l.Act? && l.o == o)
    ensures StepsInv(ls + [l], Apply(cfg, s, l), o)
  {
    StepHeap(cfg, s, l);
    assert (ls + [l])[..|ls|] == ls;
    var t := Apply(cfg, s, l);
    assert o in t.handlers <==> o in s.handlers;
    assert o in s.handlers ==> t.handlers[o] == s.handlers[o];
  }

  lemma OwnStepKeepsSteps(cfg: Config, ls: seq<Label>, s: State, o: nat, a: Action)
    requires AllEvidence(cfg, ls, s) && Spawn(o) in ls && StepsInv(ls, s, o) && Enabled(cfg, s, Act(o, a))
    ensures StepsInv(ls + [Act(o, a)], Apply(cfg, s, Act(o, a)), o)
  {
    var e, pc := s.store.heap[o], s.handlers[o];
    assert (ls + [Act(o, a)])[..|ls|] == ls;
    if !a.Release? {
      BehindGrows(cfg, ls, o, e, pc, a);
      StepHeap(cfg, s, Act(o, a));
    }
  }

  /** What is known of every reachable state. */
  ghost predicate Known(cfg: Config, ls: seq<Label>, s: State) {
    Invariant(cfg, ls, s) && AllEvidence(cfg, ls, s) && SpawnedFirst(ls, s)
  }

  lemma AllInvariants(cfg: Config, ls: seq<Label>)
    requires Run(cfg, ls)
    ensures Known(cfg, ls, After(cfg, ls))
  {
    RunInvariant(cfg, ls);
    RunEvidence(cfg, ls);
    HandlersAreSpawned(cfg, ls);
  }

  lemma StepKeepsSteps(cfg: Config, ls: seq<Label>, s: State, l: Label, o: nat)
    requires Known(cfg, ls, s)
    requires StepsInv(ls, s, o) && Enabled(cfg, s, l)
    ensures StepsInv(ls + [l], Apply(cfg, s, l), o)
  {
    if l.Act? && l.o == o {
      OwnStepKeepsSteps(cfg, ls, s, o, l.action);
    } else if l == Spawn(o) {
      assert (ls + [l])[..|ls|] == ls;
    } else {
      OtherStepKeepsSteps(cfg, ls, s, l, o);
    }
  }

  ghost predicate StepsInvAt(cfg: Config, ls: seq<Label>, o: nat) { Run(cfg, ls) && StepsInv(ls, After(cfg, ls), o) }

  lemma NextStepKeepsSteps(cfg: Config, ls: seq<Label>, l: Label, o: nat)
    requires StepsInvAt(cfg, ls, o) && Enabled(cfg, After(cfg, ls), l)
    ensures StepsInv(ls + [l], Apply(cfg, After(cfg, ls), l), o)
  {
    AllInvariants(cfg, ls);
    StepKeepsSteps(cfg, ls, After(cfg, ls), l, o);
  }

  lemma LastStepKeepsSteps(cfg: Config, ls: seq<Label>, n: nat, o: nat)
    requires Run(cfg, ls) && n + 1 == |ls| && StepsInvAt(cfg, ls[..n], o)
    ensures StepsInvAt(cfg, ls, o)
  {
    RunPrefix(cfg, ls, n);
    NextStepKeepsSteps(cfg, ls[..n], ls[n], o);
    assert ls[..n] + [ls[n]] == ls && ls[..n + 1] == ls;
  }

  lemma {:induction false} RunSteps(cfg: Config, ls: seq<Label>, o: nat)
    requires Run(cfg, ls)
    ensures StepsInvAt(cfg, ls, o)
    decreases |ls|
  {
    if ls != [] {
      var n := |ls| - 1;
      RunTo(cfg, ls, n);
      RunSteps(cfg, ls[..n], o);
      LastStepKeepsSteps(cfg, ls, n, o);
    }
  }

  lemma StepsInvBounds(ls: seq<Label>, s: State, o: nat)
    requires StepsInv(ls, s, o)
    ensures OwnSteps(ls, o) <= MOST_STEPS
    ensures OwnSteps(ls, o) == MOST_STEPS || (Spawn(o) in ls && o !in s.handlers) ==> Act(o, Release) in ls
  {
  }

  /**
   Whatever its calls return and however its steps are interleaved, a handler takes at most
   twelve steps, and one that has taken twelve, or is gone, has given its slot back.
   */
  lemma HandlerStepsBounded(cfg: Config, ls: seq<Label>, o: nat)
    requires Run(cfg, ls)
    ensures OwnSteps(ls, o) <= MOST_STEPS
    ensures OwnSteps(ls, o) == MOST_STEPS || (Spawn(o) in ls && o !in After(cfg, ls).handlers) ==> Act(o, Release) in ls
  {
    RunSteps(cfg, ls, o);
    StepsInvBounds(ls, After(cfg, ls), o);
  }

  ghost function BehindAt(cfg: Config, ls: seq<Label>, o: nat): nat
    requires Run(cfg, ls) && o in After(cfg, ls).handlers
  {
    var s := After(cfg, ls);
    Behind(o in s.store.heap && s.store.heap[o].kind.AsgLaunch?, s.handlers[o])
  }

  lemma OwnStep(cfg: Config, ls: seq<Label>, o: nat, a: Action)
    requires Run(cfg, ls) && Run(cfg, ls + [Act(o, a)]) && o in After(cfg, ls).handlers
    ensures var s, t := After(cfg, ls), After(cfg, ls + [Act(o, a)]);
      if a.Release? then o !in t.handlers && t.slots == s.slots - 1
      else o in t.handlers && t.slots == s.slots && BehindAt(cfg, ls, o) < BehindAt(cfg, ls + [Act(o, a)], o)
  {
    assert (ls + [Act(o, a)])[..|ls|] == ls;
    RunEvidence(cfg, ls);
    var s := After(cfg, ls);
    StepHeap(cfg, s, Act(o, a));
    if !a.Release? {
      BehindGrows(cfg, ls, o, s.store.heap[o], s.handlers[o], a);
    }
  }

  /** Steps of `o` alone that end with one slot fewer taken. */
  ghost predicate Frees(cfg: Config, ls: seq<Label>, o: nat, more: seq<Label>)
    requires Run(cfg, ls)
  {
    && (forall l | l in more :: l.Act? && l.o == o)
    && Run(cfg, ls + more)
    && o !in After(cfg, ls + more).handlers && After(cfg, ls + more).slots == After(cfg, ls).slots - 1
  }

  lemma FreesLater(cfg: Config, ls: seq<Label>, o: nat, l: Label, rest: seq<Label>)
    requires Run(cfg, ls) && Run(cfg, ls + [l]) && l.Act? && l.o == o
    requires After(cfg, ls + [l]).slots == After(cfg, ls).slots && Frees(cfg, ls + [l], o, rest)
    ensures Frees(cfg, ls, o, [l] + rest)
  {
    assert ls + [l] + rest == ls + ([l] + rest);
  }

  /** And it can always get there on its own: no step of it waits for another goroutine. */
  lemma {:induction false} HandlerReturnsSlot(cfg: Config, ls: seq<Label>, o: nat) returns (more: seq<Label>)
    requires Run(cfg, ls) && o in After(cfg, ls).handlers
    ensures |more| <= MOST_STEPS - BehindAt(cfg, ls, o) && Frees(cfg, ls, o, more)
    decreases MOST_STEPS - BehindAt(cfg, ls, o)
  {
    var a := HandlerNeverStuck(cfg, ls, o);
    OwnStep(cfg, ls, o, a);
    if a.Release? {
      more := [Act(o, a)];
    } else {
      var rest := HandlerReturnsSlot(cfg, ls + [Act(o, a)], o);
      FreesLater(cfg, ls, o, Act(o, a), rest);
      more := [Act(o, a)] + rest;
    }
  }

  // ---- steps that rule others out

  predicate RulesOut(a: Action, b: Action) { a != b && ActionRank(a) <= ActionRank(b) <= SkippedRank(a) }

  /** An outcome that skips a step means that the step is never taken, before or after. */
  lemma OutcomeExcludes(cfg: Config, ls: seq<Label>, o: nat, a: Action, b: Action)
    requires Run(cfg, ls) && Act(o, a) in ls && RulesOut(a, b)
    ensures Act(o, b) !in ls
  {
    if Act(o, b) in ls {
      var i :| 0 <= i < |ls| && ls[i] == Act(o, a);
      var j :| 0 <= j < |ls| && ls[j] == Act(o, b);
      if i < j {
        StepsInOrder(cfg, ls, i, j);
      } else {
        StepsInOrder(cfg, ls, j, i);
      }
    }
  }

  predicate LaunchStep(a: Action) { a.NodeReady? || a.RemoveLaunch? }
  predicate DrainStep(a: Action) { a.ResolveName? || a.MarkProcessed? || a.RemoveFailed? }

  lemma StepFitsKind(cfg: Config, ls: seq<Label>, i: nat)
    requires Run(cfg, ls) && i < |ls| && ls[i].Act?
    ensures ls[i].o in After(cfg, ls).store.heap
    ensures LaunchStep(ls[i].action) ==> After(cfg, ls).store.heap[ls[i].o].kind.AsgLaunch?
    ensures DrainStep(ls[i].action) ==> !After(cfg, ls).store.heap[ls[i].o].kind.AsgLaunch?
  {
    EnabledAt(cfg, ls, i);
    RunEvidence(cfg, ls[..i]);
    EventNeverChanges(cfg, ls, i, ls[i].o);
  }

  lemma LaunchIsNotDrain(cfg: Config, ls: seq<Label>, o: nat, a: Action, b: Action)
    requires Run(cfg, ls) && Act(o, a) in ls && LaunchStep(a) && DrainStep(b)
    ensures Act(o, b) !in ls
  {
    var i :| 0 <= i < |ls| && ls[i] == Act(o, a);
    StepFitsKind(cfg, ls, i);
    if Act(o, b) in ls {
      var j :| 0 <= j < |ls| && ls[j] == Act(o, b);
      StepFitsKind(cfg, ls, j);
    }
  }

  // ---- what is known when a handler ends

  lemma OutcomesAtRelease(cfg: Config, ls: seq<Label>, i: nat)
    requires Run(cfg, ls) && i < |ls| && ls[i].Act? && ls[i].action.Release?
    ensures Run(cfg, ls[..i]) && ls[i].o in After(cfg, ls[..i]).store.heap
    ensures var e := After(cfg, ls[..i]).store.heap[ls[i].o];
      && EntryOutcome(ls[..i], ls[i].o, e) && PostOutcome(cfg, ls[..i], ls[i].o, e)
      && (HasChannels(e) ==> HeartbeatOutcome(ls[..i], ls[i].o))
  {
    EnabledAt(cfg, ls, i);
    RunEvidence(cfg, ls[..i]);
  }

  // ---- the heartbeat a handler leaves behind

  /** The handler of `o` started a heartbeat and closed neither of its channels. */
  ghost predicate LeavesHeartbeat(cfg: Config, ls: seq<Label>, o: nat) {
    cfg.heartbeats && Act(o, PreDrain) in ls && Act(o, CancelTask) !in ls && Act(o, CloseStop) !in ls
  }

  lemma PreDrainBefore(cfg: Config, ls: seq<Label>, k: nat)
    requires Run(cfg, ls) && k < |ls| && ls[k].Act? && ls[k].action.CordonDrain?
    ensures Act(ls[k].o, PreDrain) in ls[..k]
  {
    EnabledAt(cfg, ls, k);
    RunEvidence(cfg, ls[..k]);
  }

  lemma PreDrainComesFirst(cfg: Config, ls: seq<Label>, o: nat)
    requires Run(cfg, ls) && Act(o, CordonDrain(true)) in ls
    ensures Act(o, PreDrain) in ls
  {
    var k :| 0 <= k < |ls| && ls[k] == Act(o, CordonDrain(true));
    PreDrainBefore(cfg, ls, k);
  }

  lemma FailedCompletionLeavesHeartbeat(cfg: Config, ls: seq<Label>, o: nat)
    requires Run(cfg, ls) && Act(o, CordonDrain(true)) in ls && Act(o, Complete(false)) in ls
    ensures Act(o, PreDrain) in ls && Act(o, CancelTask) !in ls && Act(o, CloseStop) !in ls
  {
    PreDrainComesFirst(cfg, ls, o);
    OutcomeExcludes(cfg, ls, o, CordonDrain(true), CancelTask);
    OutcomeExcludes(cfg, ls, o, Complete(false), CloseStop);
  }

  /**
   The handler of an ASG termination event leaves its heartbeat running exactly when heartbeats
   are on, the drain worked and completing the lifecycle hook failed.
   */
  lemma LeavesHeartbeatIff(cfg: Config, ls: seq<Label>, i: nat)
    requires Run(cfg, ls) && i < |ls| && ls[i].Act? && ls[i].action.Release?
    ensures Run(cfg, ls[..i]) && ls[i].o in After(cfg, ls[..i]).store.heap
    ensures var o := ls[i].o;
      HasChannels(After(cfg, ls[..i]).store.heap[o]) ==>
        (LeavesHeartbeat(cfg, ls[..i], o) <==>
          cfg.heartbeats && Act(o, CordonDrain(true)) in ls[..i] && Act(o, Complete(false)) in ls[..i])
  {
    OutcomesAtRelease(cfg, ls, i);
    var before, o := ls[..i], ls[i].o;
    if Act(o, CordonDrain(true)) in before && Act(o, Complete(false)) in before {
      FailedCompletionLeavesHeartbeat(cfg, before, o);
    } else if Act(o, ResolveName(None)) in before {
      OutcomeExcludes(cfg, before, o, ResolveName(None), PreDrain);
    }
  }

  // ---- the message a handler deletes

  lemma DeletionWasEarned(cfg: Config, ls: seq<Label>, k: nat)
    requires Run(cfg, ls) && k < |ls| && ls[k].Act? && ls[k].action.DeleteMessage?
    ensures Run(cfg, ls[..k]) && ls[k].o in After(cfg, ls[..k]).store.heap
    ensures Earned(cfg, ls[..k], ls[k].o, After(cfg, ls[..k]).store.heap[ls[k].o])
  {
    EnabledAt(cfg, ls, k);
    RunEvidence(cfg, ls[..k]);
  }

  lemma DeletedOnlyIfEarned(cfg: Config, ls: seq<Label>, o: nat)
    requires Run(cfg, ls) && o in After(cfg, ls).store.heap && Act(o, DeleteMessage) in ls
    ensures Earned(cfg, ls, o, After(cfg, ls).store.heap[o]) && Act(o, Complete(false)) !in ls
  {
    var k :| 0 <= k < |ls| && ls[k] == Act(o, DeleteMessage);
    DeletionWasEarned(cfg, ls, k);
    EventNeverChanges(cfg, ls, k, o);
    assert forall l | l in ls[..k] :: l in ls;
    if Act(o, Complete(false)) in ls {
      OutcomeExcludes(cfg, ls, o, Complete(false), DeleteMessage);
    }
  }

  lemma OneDrainOutcome(cfg: Config, ls: seq<Label>, o: nat)
    requires Run(cfg, ls)
    ensures !(Act(o, CordonDrain(true)) in ls && Act(o, CordonDrain(false)) in ls)
    ensures !(Act(o, FetchLabels(true)) in ls && Act(o, FetchLabels(false)) in ls)
    ensures Act(o, ResolveName(None)) in ls ==> Act(o, CordonDrain(true)) !in ls && Act(o, FetchLabels(false)) !in ls
  {
    if Act(o, CordonDrain(false)) in ls {
      OutcomeExcludes(cfg, ls, o, CordonDrain(false), CordonDrain(true));
    }
    if Act(o, FetchLabels(false)) in ls {
      OutcomeExcludes(cfg, ls, o, FetchLabels(false), FetchLabels(true));
    }
    if Act(o, ResolveName(None)) in ls {
      OutcomeExcludes(cfg, ls, o, ResolveName(None), CordonDrain(true));
      OutcomeExcludes(cfg, ls, o, ResolveName(None), FetchLabels(false));
    }
  }

  /**
   The handler of an event from the queue, launches aside, has deleted the message by its end
   exactly when no completion of a hook failed and the drain worked or, with the delete flag
   on, the node's labels could not be read.  So after a failed drain the message goes exactly
   when the flag is on, that one read failed and the hook, if any, was completed.
   */
  lemma MessageDeletedIff(cfg: Config, ls: seq<Label>, i: nat)
    requires Run(cfg, ls) && i < |ls| && ls[i].Act? && ls[i].action.Release?
    ensures Run(cfg, ls[..i]) && ls[i].o in After(cfg, ls[..i]).store.heap
    ensures var o, e, before := ls[i].o, After(cfg, ls[..i]).store.heap[ls[i].o], ls[..i];
      !e.kind.AsgLaunch? && HasPostTask(e) ==>
        && (Act(o, DeleteMessage) in before <==>
              && Act(o, Complete(false)) !in before
              && (Act(o, CordonDrain(true)) in before
                  || (cfg.deleteIfNodeNotFound && Act(o, FetchLabels(false)) in before)))
        && (Act(o, CordonDrain(false)) in before ==>
              (Act(o, DeleteMessage) in before <==>
                cfg.deleteIfNodeNotFound && Act(o, FetchLabels(false)) in before && Act(o, Complete(false)) !in before))
  {
    OutcomesAtRelease(cfg, ls, i);
    OneDrainOutcome(cfg, ls[..i], ls[i].o);
    if Act(ls[i].o, DeleteMessage) in ls[..i] {
      DeletedOnlyIfEarned(cfg, ls[..i], ls[i].o);
    }
  }
}
