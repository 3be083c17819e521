/**
 The entry of a dispatched event: who closes it, when it outlives its handler, and what it then
 keeps from happening.
 */
module PipelineEntries {
  import opened Wrappers
  import opened InterruptionEvents
  import opened Pipeline
  import opened PipelineDispatch
  import opened PipelineHandlers
  import opened PipelineExits

  // ---- open entries

  /** The object is stored under its ID and its node has not been marked. */
  ghost predicate Open(s: State, o: nat) {
    && o in s.store.heap && s.store.heap[o].eventId in s.store.table
    && s.store.table[s.store.heap[o].eventId] == o && !s.store.heap[o].nodeProcessed
  }

  /** A step that removes the entry or marks its node. */
  ghost predicate Closes(s: State, l: Label, o: nat)
    requires o in s.store.heap
  {
    var e := s.store.heap[o];
    || l == WatcherCancel(e.eventId)
    || (l.Act? && l.o in s.handlers && l.o in s.store.heap &&
          match s.handlers[l.o]
          case LaunchRemove => s.store.heap[l.o].eventId == e.eventId
          case Removing(_) => s.store.heap[l.o].eventId == e.eventId
          case Marking(node, _) => node == e.node
          case _ => false)
  }

  lemma ActClosesIff(cfg: Config, s: State, l: Label, o: nat)
    requires Enabled(cfg, s, l) && Open(s, o) && l.Act?
    ensures !Open(Apply(cfg, s, l), o) <==> Closes(s, l, o)
  {
    assert o in s.store.table.Values;
  }

  lemma StoreStepClosesIff(cfg: Config, s: State, l: Label, o: nat)
    requires AdderOwns(s) && Enabled(cfg, s, l) && Open(s, o) && (l.WatcherCancel? || l.Sweep? || l.AddInsert?)
    ensures !Open(Apply(cfg, s, l), o) <==> Closes(s, l, o)
  {
  }

  /** An open entry is closed by exactly those steps. */
  lemma ClosesIff(cfg: Config, s: State, l: Label, o: nat)
    requires AdderOwns(s) && Enabled(cfg, s, l) && Open(s, o)
    ensures !Open(Apply(cfg, s, l), o) <==> Closes(s, l, o)
  {
    if l.Act? {
      ActClosesIff(cfg, s, l, o);
    } else if l.WatcherCancel? || l.Sweep? || l.AddInsert? {
      StoreStepClosesIff(cfg, s, l, o);
    }
  }

  /** The adder has put the object in the store and let go of it. */
  predicate Handed(s: State, o: nat) { o in s.store.heap && (s.adder.AdderIdle? || s.adder.o != o) }

  /** A closed entry stays closed. */
  lemma ClosedStays(cfg: Config, s: State, l: Label, o: nat)
    requires Enabled(cfg, s, l) && Handed(s, o)
    ensures Handed(Apply(cfg, s, l), o)
    ensures Open(Apply(cfg, s, l), o) ==> Open(s, o)
  {
    StepHeap(cfg, s, l);
    StepTable(cfg, s, l);
  }

  // ---- over a run

  ghost predicate OpenAt(cfg: Config, ls: seq<Label>, k: nat, o: nat) {
    k <= |ls| && Run(cfg, ls[..k]) && Open(After(cfg, ls[..k]), o)
  }

  ghost predicate HandedAt(cfg: Config, ls: seq<Label>, k: nat, o: nat) {
    k <= |ls| && Run(cfg, ls[..k]) && Handed(After(cfg, ls[..k]), o)
  }

  /** Step k closes the entry. */
  ghost predicate ClosedAt(cfg: Config, ls: seq<Label>, k: nat, o: nat) {
    OpenAt(cfg, ls, k, o) && !OpenAt(cfg, ls, k + 1, o)
  }

  lemma {:induction false} OpenUnlessClosed(cfg: Config, ls: seq<Label>, i: nat, j: nat, o: nat)
    requires Run(cfg, ls) && i <= j <= |ls| && OpenAt(cfg, ls, i, o)
    ensures OpenAt(cfg, ls, j, o) || exists k :: i <= k < j && ClosedAt(cfg, ls, k, o)
    decreases j - i
  {
    if i < j {
      if OpenAt(cfg, ls, i + 1, o) {
        OpenUnlessClosed(cfg, ls, i + 1, j, o);
      } else {
        assert ClosedAt(cfg, ls, i, o);
      }
    }
  }

  lemma ClosedStep(cfg: Config, ls: seq<Label>, k: nat, o: nat)
    requires Run(cfg, ls) && k < |ls| && HandedAt(cfg, ls, k, o)
    ensures HandedAt(cfg, ls, k + 1, o)
    ensures OpenAt(cfg, ls, k + 1, o) ==> OpenAt(cfg, ls, k, o)
  {
    RunPrefix(cfg, ls, k);
    ClosedStays(cfg, After(cfg, ls[..k]), ls[k], o);
  }

  lemma {:induction false} OpenWasOpen(cfg: Config, ls: seq<Label>, i: nat, j: nat, o: nat)
    requires Run(cfg, ls) && i <= j <= |ls| && HandedAt(cfg, ls, i, o) && OpenAt(cfg, ls, j, o)
    ensures OpenAt(cfg, ls, i, o)
    decreases j - i
  {
    if i < j {
      ClosedStep(cfg, ls, i, o);
      OpenWasOpen(cfg, ls, i + 1, j, o);
    }
  }

  lemma ClosingStep(cfg: Config, ls: seq<Label>, k: nat, o: nat)
    requires Run(cfg, ls) && k < |ls| && OpenAt(cfg, ls, k, o)
    ensures ClosedAt(cfg, ls, k, o) <==> Closes(After(cfg, ls[..k]), ls[k], o)
  {
    RunPrefix(cfg, ls, k);
    RunInvariant(cfg, ls[..k]);
    ClosesIff(cfg, After(cfg, ls[..k]), ls[k], o);
  }

  lemma PickedIsOpen(cfg: Config, ls: seq<Label>, p: nat)
    requires Run(cfg, ls) && p < |ls| && ls[p].Pick?
    ensures OpenAt(cfg, ls, p, ls[p].o) && HandedAt(cfg, ls, p, ls[p].o)
  {
    EnabledAt(cfg, ls, p);
    RunInvariant(cfg, ls[..p]);
  }

  lemma HandlerIsHanded(cfg: Config, ls: seq<Label>, k: nat, o: nat)
    requires Run(cfg, ls) && k <= |ls| && Run(cfg, ls[..k]) && o in After(cfg, ls[..k]).handlers
    ensures HandedAt(cfg, ls, k, o)
  {
    RunInvariant(cfg, ls[..k]);
  }

  // ---- what a handler does about its own entry

  predicate OwnStepOf(l: Label, o: nat) { l.Act? && l.o == o }

  lemma ClosingPlaces(cfg: Config, e: Event, pc: HandlerPc, a: Action)
    requires CanAct(cfg, e, pc, a)
    ensures a.RemoveLaunch? <==> pc.LaunchRemove?
    ensures a.RemoveFailed? <==> pc.Removing?
    ensures a.MarkProcessed? <==> pc.Marking?
  {
  }

  lemma MarkingKnowsName(cfg: Config, ls: seq<Label>, o: nat)
    requires Run(cfg, ls) && o in After(cfg, ls).handlers && After(cfg, ls).handlers[o].Marking?
    ensures Act(o, ResolveName(Some(After(cfg, ls).handlers[o].node))) in ls
    ensures Act(o, CordonDrain(true)) in ls
  {
    RunEvidence(cfg, ls);
  }

  /** Where a handler must stand to take a step that matters here, and under which name. */
  lemma OwnPlace(cfg: Config, ls: seq<Label>, k: nat)
    requires Run(cfg, ls) && k < |ls| && ls[k].Act?
    ensures Run(cfg, ls[..k]) && ls[k].o in After(cfg, ls[..k]).handlers && ls[k].o in After(cfg, ls[..k]).store.heap
    ensures var pc := After(cfg, ls[..k]).handlers[ls[k].o];
      && (ls[k].action.RemoveLaunch? <==> pc.LaunchRemove?)
      && (ls[k].action.RemoveFailed? <==> pc.Removing?)
      && (ls[k].action.MarkProcessed? <==> pc.Marking?)
      && (pc.Marking? ==> Act(ls[k].o, ResolveName(Some(pc.node))) in ls[..k] && Act(ls[k].o, CordonDrain(true)) in ls[..k])
  {
    EnabledAt(cfg, ls, k);
    var s, o := After(cfg, ls[..k]), ls[k].o;
    ClosingPlaces(cfg, s.store.heap[o], s.handlers[o], ls[k].action);
    if s.handlers[o].Marking? {
      MarkingKnowsName(cfg, ls[..k], o);
    }
  }

  /** What the handler's own closing steps look like in the run. */
  lemma OwnClosing(cfg: Config, ls: seq<Label>, k: nat, o: nat)
    requires Run(cfg, ls) && k < |ls| && OwnStepOf(ls[k], o)
    ensures Run(cfg, ls[..k]) && o in After(cfg, ls[..k]).store.heap && HandedAt(cfg, ls, k, o)
    ensures var e := After(cfg, ls[..k]).store.heap[o];
      Closes(After(cfg, ls[..k]), ls[k], o) <==>
        || ls[k].action.RemoveLaunch? || ls[k].action.RemoveFailed?
        || (ls[k].action.MarkProcessed? && Act(o, ResolveName(Some(e.node))) in ls[..k])
  {
    OwnPlace(cfg, ls, k);
    HandlerIsHanded(cfg, ls, k, o);
    var pc, node := After(cfg, ls[..k]).handlers[o], After(cfg, ls[..k]).store.heap[o].node;
    if pc.Marking? && Act(o, ResolveName(Some(node))) in ls[..k] {
      OneName(cfg, ls[..k], o, pc.node, node);
    }
  }

  lemma OneName(cfg: Config, ls: seq<Label>, o: nat, m: string, n: string)
    requires Run(cfg, ls) && Act(o, ResolveName(Some(m))) in ls && Act(o, ResolveName(Some(n))) in ls
    ensures m == n
  {
    if m != n {
      OutcomeExcludes(cfg, ls, o, ResolveName(Some(m)), ResolveName(Some(n)));
    }
  }

  /** While the entry is open, its handler has taken no closing step. */
  lemma OpenMeansNotClosed(cfg: Config, ls: seq<Label>, k: nat, i: nat, o: nat)
    requires Run(cfg, ls) && k < i <= |ls| && OpenAt(cfg, ls, i, o) && HandedAt(cfg, ls, k, o)
    ensures !ClosedAt(cfg, ls, k, o) && OpenAt(cfg, ls, k, o)
  {
    ClosedStep(cfg, ls, k, o);
    OpenWasOpen(cfg, ls, k + 1, i, o);
  }

  lemma OpenMeansNoOwnClosing(cfg: Config, ls: seq<Label>, k: nat, i: nat, o: nat)
    requires Run(cfg, ls) && k < i <= |ls| && OpenAt(cfg, ls, i, o) && OwnStepOf(ls[k], o)
    ensures Run(cfg, ls[..k]) && o in After(cfg, ls[..k]).store.heap
    ensures !ls[k].action.RemoveLaunch? && !ls[k].action.RemoveFailed?
    ensures ls[k].action.MarkProcessed? ==> Act(o, ResolveName(Some(After(cfg, ls[..k]).store.heap[o].node))) !in ls[..k]
  {
    OwnClosing(cfg, ls, k, o);
    OpenMeansNotClosed(cfg, ls, k, i, o);
    ClosingStep(cfg, ls, k, o);
  }

  /** The node was looked up under a name that is not the event's own. */
  ghost predicate OtherName(ls: seq<Label>, o: nat, node: string) {
    exists n :: n != node && Act(o, ResolveName(Some(n))) in ls
  }

  lemma MarkingNames(cfg: Config, ls: seq<Label>, k: nat)
    requires Run(cfg, ls) && k < |ls| && ls[k].Act? && ls[k].action.MarkProcessed?
    ensures Act(ls[k].o, CordonDrain(true)) in ls[..k]
    ensures exists n :: Act(ls[k].o, ResolveName(Some(n))) in ls[..k]
  {
    OwnPlace(cfg, ls, k);
  }

  lemma OpenMarkingNamedOther(cfg: Config, ls: seq<Label>, k: nat, i: nat, o: nat)
    requires Run(cfg, ls) && k < i <= |ls| && OpenAt(cfg, ls, i, o) && ls[k] == Act(o, MarkProcessed)
    ensures Act(o, CordonDrain(true)) in ls[..i] && OtherName(ls[..i], o, After(cfg, ls[..i]).store.heap[o].node)
  {
    OpenMeansNoOwnClosing(cfg, ls, k, i, o);
    MarkingNames(cfg, ls, k);
    var n :| Act(o, ResolveName(Some(n))) in ls[..k];
    assert ls[..i][..k] == ls[..k];
    EventNeverChanges(cfg, ls[..i], k, o);
    assert forall l | l in ls[..k] :: l in ls[..i];
    assert Act(o, ResolveName(Some(n))) in ls[..i];
  }

  /**
   The ways in which a handler does nothing about its own entry: no name was found, a launch was
   ready, or the drain worked under a name that is not the event's own, so that the marking of
   that name passed the entry by.
   */
  ghost predicate PassedBy(ls: seq<Label>, o: nat, node: string) {
    || Act(o, ResolveName(None)) in ls
    || Act(o, NodeReady(Ready)) in ls
    || (Act(o, CordonDrain(true)) in ls && OtherName(ls, o, node))
  }

  lemma OpenMeansPassedBy(cfg: Config, ls: seq<Label>, i: nat)
    requires Run(cfg, ls) && i < |ls| && ls[i].Act? && ls[i].action.Release? && OpenAt(cfg, ls, i, ls[i].o)
    ensures PassedBy(ls[..i], ls[i].o, After(cfg, ls[..i]).store.heap[ls[i].o].node)
  {
    var o := ls[i].o;
    OutcomesAtRelease(cfg, ls, i);
    if k :| 0 <= k < i && ls[k] == Act(o, MarkProcessed) {
      OpenMarkingNamedOther(cfg, ls, k, i, o);
    } else if k :| 0 <= k < i && (ls[k] == Act(o, RemoveLaunch) || ls[k] == Act(o, RemoveFailed)) {
      OpenMeansNoOwnClosing(cfg, ls, k, i, o);
    }
  }

  lemma PassedByExcludes(cfg: Config, ls: seq<Label>, o: nat, node: string)
    requires Run(cfg, ls) && PassedBy(ls, o, node)
    ensures Act(o, RemoveLaunch) !in ls && Act(o, RemoveFailed) !in ls
    ensures Act(o, MarkProcessed) in ls ==> Act(o, ResolveName(Some(node))) !in ls
  {
    if Act(o, ResolveName(None)) in ls {
      OutcomeExcludes(cfg, ls, o, ResolveName(None), RemoveLaunch);
      OutcomeExcludes(cfg, ls, o, ResolveName(None), RemoveFailed);
      OutcomeExcludes(cfg, ls, o, ResolveName(None), MarkProcessed);
    } else if Act(o, NodeReady(Ready)) in ls {
      OutcomeExcludes(cfg, ls, o, NodeReady(Ready), RemoveLaunch);
      LaunchIsNotDrain(cfg, ls, o, NodeReady(Ready), RemoveFailed);
      LaunchIsNotDrain(cfg, ls, o, NodeReady(Ready), MarkProcessed);
    } else {
      NamedOtherExcludes(cfg, ls, o, node);
    }
  }

  lemma NamedOtherExcludes(cfg: Config, ls: seq<Label>, o: nat, node: string)
    requires Run(cfg, ls) && Act(o, CordonDrain(true)) in ls && OtherName(ls, o, node)
    ensures Act(o, RemoveLaunch) !in ls && Act(o, RemoveFailed) !in ls
    ensures Act(o, ResolveName(Some(node))) !in ls
  {
    var n :| n != node && Act(o, ResolveName(Some(n))) in ls;
    OutcomeExcludes(cfg, ls, o, CordonDrain(true), RemoveFailed);
    if Act(o, RemoveLaunch) in ls {
      LaunchIsNotDrain(cfg, ls, o, RemoveLaunch, ResolveName(Some(n)));
    }
    if Act(o, ResolveName(Some(node))) in ls {
      OneName(cfg, ls, o, n, node);
    }
  }

  lemma PassedByNeverCloses(cfg: Config, ls: seq<Label>, k: nat, i: nat, o: nat)
    requires Run(cfg, ls) && k < i <= |ls| && OwnStepOf(ls[k], o) && OpenAt(cfg, ls, k, o)
    requires Run(cfg, ls[..i]) && o in After(cfg, ls[..i]).store.heap
    requires PassedBy(ls[..i], o, After(cfg, ls[..i]).store.heap[o].node)
    ensures !ClosedAt(cfg, ls, k, o)
  {
    PassedByExcludes(cfg, ls[..i], o, After(cfg, ls[..i]).store.heap[o].node);
    OwnClosing(cfg, ls, k, o);
    ClosingStep(cfg, ls, k, o);
    assert ls[..i][..k] == ls[..k] && ls[..i][k] == ls[k];
    EventNeverChanges(cfg, ls[..i], k, o);
    assert forall l | l in ls[..k] :: l in ls[..i];
  }

  /** Since pick p nobody but the handler itself has closed the entry. */
  ghost predicate UntouchedByOthers(cfg: Config, ls: seq<Label>, p: nat, i: nat, o: nat) {
    forall k | p <= k < i <= |ls| && ClosedAt(cfg, ls, k, o) :: OwnStepOf(ls[k], o)
  }

  /**
   The entry of a dispatched event is still open when its handler ends exactly when nobody else
   closed it and the handler passed it by.
   */
  lemma LeftOpenIff(cfg: Config, ls: seq<Label>, p: nat, i: nat)
    requires Run(cfg, ls) && p < i < |ls| && ls[p].Pick? && ls[i] == Act(ls[p].o, Release)
    ensures Run(cfg, ls[..i]) && ls[p].o in After(cfg, ls[..i]).store.heap
    ensures var o := ls[p].o;
      OpenAt(cfg, ls, i, o) <==>
        PassedBy(ls[..i], o, After(cfg, ls[..i]).store.heap[o].node) && UntouchedByOthers(cfg, ls, p, i, o)
  {
    var o := ls[p].o;
    OutcomesAtRelease(cfg, ls, i);
    PickedIsOpen(cfg, ls, p);
    if OpenAt(cfg, ls, i, o) {
      OpenMeansPassedBy(cfg, ls, i);
      forall k | p <= k < i ensures !ClosedAt(cfg, ls, k, o) {
        HandedStays(cfg, ls, p, k, o);
        OpenMeansNotClosed(cfg, ls, k, i, o);
      }
    } else if PassedBy(ls[..i], o, After(cfg, ls[..i]).store.heap[o].node) && UntouchedByOthers(cfg, ls, p, i, o) {
      OpenUnlessClosed(cfg, ls, p, i, o);
      var k :| p <= k < i && ClosedAt(cfg, ls, k, o);
      PassedByNeverCloses(cfg, ls, k, i, o);
    }
  }

  lemma {:induction false} HandedStays(cfg: Config, ls: seq<Label>, i: nat, j: nat, o: nat)
    requires Run(cfg, ls) && i <= j <= |ls| && HandedAt(cfg, ls, i, o)
    ensures HandedAt(cfg, ls, j, o)
    decreases j - i
  {
    if i < j {
      ClosedStep(cfg, ls, i, o);
      HandedStays(cfg, ls, i + 1, j, o);
    }
  }

  // ---- what an entry that was left keeps from happening

  /** Step k takes the entry out, in one of the three ways there are. */
  ghost predicate TakenOutAt(cfg: Config, ls: seq<Label>, k: nat, id: string, o: nat) {
    k < |ls| && RemovedAt(cfg, ls, k, id, o) && Removes(After(cfg, ls[..k]), ls[k], id)
  }

  lemma RemovalIsTakingOut(cfg: Config, ls: seq<Label>, k: nat, id: string, o: nat)
    requires Run(cfg, ls) && k < |ls| && RemovedAt(cfg, ls, k, id, o)
    ensures TakenOutAt(cfg, ls, k, id, o)
  {
    RunPrefix(cfg, ls, k);
    RemovedExactlyBy(cfg, After(cfg, ls[..k]), ls[k], id);
  }

  lemma StartedIsNotPicked(cfg: Config, ls: seq<Label>, j: nat, o: nat)
    requires Run(cfg, ls) && j < |ls| && ls[j].Pick? && SetInProgress(o) in ls[..j]
    ensures ls[j].o != o
  {
    EnabledAt(cfg, ls, j);
    RunInvariant(cfg, ls[..j]);
  }

  /**
   What a started event's entry does from then on, in particular one that its handler left: the
   object is never picked again, the entry leaves only by a watcher's cancel, a sweep after its
   node was marked, or a handler that removes its ID, and until then nothing with its ID is
   picked.
   */
  lemma StartedEntryBlocks(cfg: Config, ls: seq<Label>, i: nat, j: nat, id: string, o: nat)
    requires Run(cfg, ls) && i <= j < |ls| && SetInProgress(o) in ls[..i] && Stored(cfg, ls, i, id, o)
    ensures ls[j].Pick? ==> ls[j].o != o
    ensures Stored(cfg, ls, j, id, o) || exists k :: i <= k < j && TakenOutAt(cfg, ls, k, id, o)
    ensures ls[j].Pick? && Run(cfg, ls[..j]) && Carries(cfg, ls[..j], ls[j].o, id) ==>
      exists k :: i <= k < j && TakenOutAt(cfg, ls, k, id, o)
  {
    assert SetInProgress(o) in ls[..j] by {
      var k :| 0 <= k < i && ls[..i][k] == SetInProgress(o);
      assert ls[..j][k] == SetInProgress(o);
    }
    EntryStaysUnlessRemoved(cfg, ls, i, j, id, o);
    if !Stored(cfg, ls, j, id, o) {
      var k :| i <= k < j && RemovedAt(cfg, ls, k, id, o);
      RemovalIsTakingOut(cfg, ls, k, id, o);
    }
    if ls[j].Pick? {
      StartedIsNotPicked(cfg, ls, j, o);
      var picked := PickIsStored(cfg, ls, j);
    }
  }
}
