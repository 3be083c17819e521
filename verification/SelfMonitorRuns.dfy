/**
 Properties of whole runs of the self-monitor, across pod restarts and failed API calls.
 */
module SelfMonitorRuns {
  import opened Wrappers
  import opened KubeNodes
  import opened Utilization
  import opened SelfMonitor
  import Timer = StabilityTimer

  // ---- the termination wait

  /** A step that makes Start enter the termination wait. */
  predicate OpensWait(l: Label) { l == SetAsg(true) || l == CheckMarker(true) }

  predicate KeepsWaiting(l: Label) { l.Advance? || l == WaitTick(Alive) }

  /** The wait opened at w and has seen the node alive ever since. */
  ghost predicate WaitOpen(ls: seq<Label>, w: int) {
    0 <= w < |ls| && OpensWait(ls[w]) && forall k | w < k < |ls| :: KeepsWaiting(ls[k])
  }

  /** ... and the node was still alive a full termination wait later. */
  ghost predicate WaitedFully(cfg: Config, ls: seq<Label>, w: int) {
    && WaitOpen(ls, w)
    && exists t :: w < t < |ls| && ls[t] == WaitTick(Alive)
                   && Clock(cfg, ls[..t]) - Clock(cfg, ls[..w]) >= TERMINATION_WAIT
  }

  /** The call in progress began at c, and its own read, if it worked, found no marker. */
  ghost predicate CallOpen(cfg: Config, ls: seq<Label>, c: int) {
    && 0 <= c < |ls| && ls[c].CheckMarker? && Call(ls) != [] && Call(ls)[0] == ls[c]
    && (forall k | c < k < |ls| :: !ls[k].SetAsg?)
    && Run(cfg, ls[..c]) && (ls[c].readOk ==> !After(cfg, ls[..c]).marker)
  }

  ghost predicate RunInv(cfg: Config, ls: seq<Label>, s: State) {
    && CallInv(cfg, ls, s)
    && (s.pod.Up? && s.pod.pc.Waiting? ==> exists w :: WaitOpen(ls, w) && Clock(cfg, ls[..w]) == s.pod.pc.from)
    && (s.pod.Up? && s.pod.pc.AtClear? ==> exists w :: WaitedFully(cfg, ls, w))
    && (s.pod.Up? && Depth(s.pod.pc) > 0 ==> exists c :: CallOpen(cfg, ls, c))
  }

  lemma WaitStep(cfg: Config, ls: seq<Label>, w: int, l: Label)
    requires WaitOpen(ls, w) && KeepsWaiting(l)
    ensures WaitOpen(ls + [l], w) && (ls + [l])[..w] == ls[..w]
    ensures WaitedFully(cfg, ls, w) ==> WaitedFully(cfg, ls + [l], w)
  {
    if WaitedFully(cfg, ls, w) {
      var t :| w < t < |ls| && ls[t] == WaitTick(Alive) && Clock(cfg, ls[..t]) - Clock(cfg, ls[..w]) >= TERMINATION_WAIT;
      assert (ls + [l])[..t] == ls[..t] && (ls + [l])[t] == WaitTick(Alive);
    }
  }

  lemma CallStep(cfg: Config, ls: seq<Label>, c: int, l: Label)
    requires CallOpen(cfg, ls, c) && !l.SetAsg? && !l.CheckMarker?
    ensures CallOpen(cfg, ls + [l], c)
  {
    assert (ls + [l])[..c] == ls[..c];
    CallGrows(cfg, ls, l);
  }

  lemma StepKeepsCallOpen(cfg: Config, ls: seq<Label>, s: State, l: Label)
    requires Run(cfg, ls) && s == After(cfg, ls) && RunInv(cfg, ls, s) && Enabled(s, l)
    ensures var t := Apply(cfg, s, l);
      t.pod.Up? && Depth(t.pod.pc) > 0 ==> exists c :: CallOpen(cfg, ls + [l], c)
  {
    assert (ls + [l])[..|ls|] == ls && (ls + [l])[|ls|] == l;
    if l.CheckMarker? {
      CallGrows(cfg, ls, l);
      assert (l.readOk && s.marker) || CallOpen(cfg, ls + [l], |ls|);
    } else if s.pod.Up? && Depth(s.pod.pc) > 0 && !l.SetAsg? {
      var c :| CallOpen(cfg, ls, c);
      CallStep(cfg, ls, c, l);
    }
  }

  lemma StepKeepsWaits(cfg: Config, ls: seq<Label>, s: State, l: Label)
    requires RunInv(cfg, ls, s) && Enabled(s, l)
    ensures var t := Apply(cfg, s, l);
      && (t.pod.Up? && t.pod.pc.Waiting? ==> exists w :: WaitOpen(ls + [l], w) && Clock(cfg, (ls + [l])[..w]) == t.pod.pc.from)
      && (t.pod.Up? && t.pod.pc.AtClear? ==> exists w :: WaitedFully(cfg, ls + [l], w))
  {
    var t := Apply(cfg, s, l);
    assert (ls + [l])[..|ls|] == ls && (ls + [l])[|ls|] == l;
    if s.pod.Up? && s.pod.pc.Waiting? && KeepsWaiting(l) {
      var w :| WaitOpen(ls, w) && Clock(cfg, ls[..w]) == s.pod.pc.from;
      WaitStep(cfg, ls, w, l);
      assert t.pod.pc.AtClear? ==> WaitedFully(cfg, ls + [l], w);
    } else if s.pod.Up? && s.pod.pc.AtClear? && l.Advance? {
      var w :| WaitedFully(cfg, ls, w);
      WaitStep(cfg, ls, w, l);
    } else if OpensWait(l) {
      assert WaitOpen(ls + [l], |ls|);
    }
  }

  lemma StepKeepsRunInv(cfg: Config, ls: seq<Label>, s: State, l: Label)
    requires Run(cfg, ls) && s == After(cfg, ls) && RunInv(cfg, ls, s) && Enabled(s, l)
    ensures RunInv(cfg, ls + [l], Apply(cfg, s, l))
  {
    StepKeepsCallInv(cfg, ls, s, l);
    StepKeepsCallOpen(cfg, ls, s, l);
    StepKeepsWaits(cfg, ls, s, l);
  }

  lemma {:induction false} RunKeepsInv(cfg: Config, ls: seq<Label>)
    requires Run(cfg, ls)
    ensures RunInv(cfg, ls, After(cfg, ls))
    decreases |ls|
  {
    if ls != [] {
      var n := |ls| - 1;
      RunPrefix(cfg, ls, n);
      RunKeepsInv(cfg, ls[..n]);
      StepKeepsRunInv(cfg, ls[..n], After(cfg, ls[..n]), ls[n]);
      assert ls[..n] + [ls[n]] == ls && ls[..n + 1] == ls;
    }
  }

  // ---- the marker

  lemma MarkerAfterDecrement(cfg: Config, ls: seq<Label>, i: nat)
    requires Run(cfg, ls) && i < |ls| && ls[i] == SetAsg(true)
    ensures |Call(ls[..i])| == FULL_CALL && Call(ls[..i])[5].Mark?
    ensures Run(cfg, ls[..i + 1]) && (Call(ls[..i])[5].ok ==> After(cfg, ls[..i + 1]).marker)
  {
    RunPrefix(cfg, ls, i);
    RunCallInv(cfg, ls[..i]);
    assert StepOk(cfg, 5, Call(ls[..i])[5]);
  }

  /** Nothing but a successful clear takes a marker away. */
  lemma {:induction false} MarkerStays(cfg: Config, ls: seq<Label>, a: nat, b: nat)
    requires Run(cfg, ls) && a <= b <= |ls|
    requires Run(cfg, ls[..a]) && After(cfg, ls[..a]).marker
    ensures Run(cfg, ls[..b])
    ensures After(cfg, ls[..b]).marker || exists c :: a <= c < b && ls[c] == ClearMarker(true)
    decreases b - a
  {
    if a < b {
      RunPrefix(cfg, ls, a);
      if ls[a] != ClearMarker(true) {
        MarkerStays(cfg, ls, a + 1, b);
      } else {
        RunPrefix(cfg, ls, b);
      }
    }
  }

  /** Clearing happens only after a full wait, in the same life of the pod. */
  lemma ClearFollowsWait(cfg: Config, ls: seq<Label>, c: nat) returns (w: int)
    requires Run(cfg, ls) && c < |ls| && ls[c].ClearMarker?
    ensures WaitedFully(cfg, ls[..c], w)
  {
    RunPrefix(cfg, ls, c);
    RunKeepsInv(cfg, ls[..c]);
    w :| WaitedFully(cfg, ls[..c], w);
  }

  ghost predicate ClearedAfterWait(cfg: Config, ls: seq<Label>, i: int, w: int, c: int, j: int) {
    0 <= i <= w < c < j <= |ls| && ls[c] == ClearMarker(true) && WaitedFully(cfg, ls[..c], w)
  }

  /**
   Across any restarts and failures, two lowerings of the ASG by one node are separated by a
   full termination wait that only saw the node alive and by a clearing of the marker, unless
   the first call's marker write failed or the second call's own marker read failed.
   */
  lemma DecrementsSeparated(cfg: Config, ls: seq<Label>, i: nat, j: nat)
    requires Run(cfg, ls) && i < j < |ls| && ls[i] == SetAsg(true) == ls[j]
    ensures |Call(ls[..i])| == FULL_CALL && Call(ls[..i])[5].Mark?
    ensures |Call(ls[..j])| == FULL_CALL && Call(ls[..j])[0].CheckMarker?
    ensures
      || (exists w, c :: ClearedAfterWait(cfg, ls, i, w, c, j))
      || !Call(ls[..i])[5].ok
      || !Call(ls[..j])[0].readOk
  {
    MarkerAfterDecrement(cfg, ls, i);
    MarkerAfterDecrement(cfg, ls, j);
    RunPrefix(cfg, ls, j);
    RunKeepsInv(cfg, ls[..j]);
    var c :| CallOpen(cfg, ls[..j], c);
    assert ls[..j][c] == ls[c] && ls[..j][..c] == ls[..c] && ls[..j][i] == SetAsg(true);
    if Call(ls[..i])[5].ok && ls[c].readOk {
      MarkerStays(cfg, ls, i + 1, c);
      var d :| i + 1 <= d < c && ls[d] == ClearMarker(true);
      var w := ClearFollowsWait(cfg, ls, d);
      assert ls[..d][i] == SetAsg(true);
      assert ClearedAfterWait(cfg, ls, i, w, d, j);
    }
  }

  // ---- how often one node lowers the ASG

  function Count(ls: seq<Label>, l: Label): nat {
    if ls == [] then 0 else Count(ls[..|ls| - 1], l) + (if ls[|ls| - 1] == l then 1 else 0)
  }

  /** Clearings, failed marker writes and failed marker reads. */
  function Excuses(ls: seq<Label>): nat {
    Count(ls, ClearMarker(true)) + Count(ls, Mark(false)) + Count(ls, CheckMarker(false))
  }

  lemma CountLast(ls: seq<Label>, l: Label, m: Label)
    ensures Count(ls + [l], m) == Count(ls, m) + (if l == m then 1 else 0)
  {
    assert (ls + [l])[..|ls|] == ls;
  }

  /** A marker, or an excuse, stands for every lowering there was and, late in a call, for the next. */
  ghost predicate Accounted(lowered: nat, excuses: nat, s: State) {
    var marker := if s.marker then 1 else 0;
    && lowered <= excuses + marker
    && (s.pod.Up? && Depth(s.pod.pc) > 0 ==>
          if Depth(s.pod.pc) > 5 then lowered + 1 <= excuses + marker else lowered <= excuses)
  }

  lemma StepKeepsAccounted(cfg: Config, lowered: nat, excuses: nat, s: State, l: Label)
    requires Accounted(lowered, excuses, s) && Enabled(s, l)
    ensures Accounted(
      lowered + (if l == SetAsg(true) then 1 else 0),
      excuses + (if l == ClearMarker(true) || l == Mark(false) || l == CheckMarker(false) then 1 else 0),
      Apply(cfg, s, l))
  {
  }

  lemma {:induction false} RunAccounted(cfg: Config, ls: seq<Label>)
    requires Run(cfg, ls)
    ensures Accounted(Count(ls, SetAsg(true)), Excuses(ls), After(cfg, ls))
  {
    if ls != [] {
      var n := |ls| - 1;
      var front, l := ls[..n], ls[n];
      RunAccounted(cfg, front);
      StepKeepsAccounted(cfg, Count(front, SetAsg(true)), Excuses(front), After(cfg, front), l);
      assert front + [l] == ls;
      CountLast(front, l, SetAsg(true));
      CountLast(front, l, ClearMarker(true));
      CountLast(front, l, Mark(false));
      CountLast(front, l, CheckMarker(false));
    }
  }

  /** One node lowers the ASG at most once more than it cleared its marker or a marker call failed. */
  lemma LoweringsBounded(cfg: Config, ls: seq<Label>)
    requires Run(cfg, ls)
    ensures Count(ls, SetAsg(true)) <= 1 + Excuses(ls)
  {
    RunAccounted(cfg, ls);
  }

  // ---- both exceptions are real

  lemma Extend(cfg: Config, ls: seq<Label>, l: Label)
    requires Run(cfg, ls) && Enabled(After(cfg, ls), l)
    ensures Run(cfg, ls + [l]) && After(cfg, ls + [l]) == Apply(cfg, After(cfg, ls), l)
  {
    assert (ls + [l])[..|ls|] == ls;
  }

  /** Between checks, with every gate about to pass. */
  ghost predicate Primed(cfg: Config, s: State) {
    && s.pod.Up? && s.pod.pc.Idle?
    && s.now - s.pod.start >= cfg.minimumWait
    && s.pod.healthySince.Some? && s.now - s.pod.healthySince.value >= cfg.stability
    && s.pod.limit >= 0.0
  }

  /** Two small nodes without pods, one of them to go. */
  const QUIET := Load([SMALL, SMALL], [], SMALL)

  lemma QuietGateOpen(limit: real)
    requires limit >= 0.0
    ensures GateOpen(QUIET, limit)
  {
    assert IsReady(SMALL) by { assert SMALL.conditions[0].isReadyType; }
    assert [SMALL, SMALL][..1] == [SMALL] && [SMALL][..0] == [];
    assert TotalCpu([SMALL]) == 1 && TotalMemory([SMALL]) == 1;
    assert CpuLeft(QUIET.nodes, SMALL) == 1 && MemoryLeft(QUIET.nodes, SMALL) == 1;
    GateExact(0, 0, 1, 1, limit);
  }

  function AttemptStep(readOk: bool, markOk: bool, load: Load, i: int): Label {
    match i
    case 0 => CheckMarker(readOk)
    case 1 => MinimumWait
    case 2 => Health(Probe(true, true))
    case 3 => Safety(true, load)
    case 4 => JitterOver
    case 5 => Mark(markOk)
    case 6 => Taint(true)
    case 7 => Cordon(true)
    case 8 => Drain(true)
    case 9 => Reschedule(true)
    case 10 => DescribeAsg(true)
    case 11 => SetAsg(true)
    case _ => WaitTick(ReadFailed)
  }

  const ATTEMPT: int := 13

  /** A call that lowers the ASG, and a termination wait cut short by a failed read. */
  function Attempt(readOk: bool, markOk: bool, load: Load): seq<Label> {
    seq(ATTEMPT, i => AttemptStep(readOk, markOk, load, i))
  }

  function AttemptPc(now: int, i: int): Pc {
    match i
    case 1 => AtMinimumWait
    case 2 => AtHealth
    case 3 => AtSafety
    case 4 => AtJitter
    case 5 => AtMark
    case 6 => AtTaint
    case 7 => AtCordon
    case 8 => AtDrain
    case 9 => AtReschedule
    case 10 => AtDescribe
    case 11 => AtSet
    case 12 => Waiting(now)
    case _ => Idle
  }

  function AttemptState(s: State, markOk: bool, i: int): State
    requires s.pod.Up?
  {
    Goto(s, AttemptPc(s.now, i)).(marker := s.marker || (markOk && i > 5))
  }

  lemma AttemptAdvances(cfg: Config, s: State, readOk: bool, markOk: bool, load: Load, i: int)
    requires Primed(cfg, s) && (readOk ==> !s.marker) && GateOpen(load, s.pod.limit) && 0 <= i < ATTEMPT
    ensures Enabled(AttemptState(s, markOk, i), AttemptStep(readOk, markOk, load, i))
    ensures Apply(cfg, AttemptState(s, markOk, i), AttemptStep(readOk, markOk, load, i)) == AttemptState(s, markOk, i + 1)
  {
  }

  lemma {:induction false} RunAll(cfg: Config, ls: seq<Label>, more: seq<Label>, k: nat, ss: seq<State>)
    requires Run(cfg, ls) && k <= |more| && |ss| == |more| + 1 && ss[0] == After(cfg, ls)
    requires forall i | 0 <= i < |more| :: Enabled(ss[i], more[i]) && ss[i + 1] == Apply(cfg, ss[i], more[i])
    ensures Run(cfg, ls + more[..k]) && After(cfg, ls + more[..k]) == ss[k]
    decreases k
  {
    if k == 0 {
      assert ls + more[..0] == ls;
    } else {
      RunAll(cfg, ls, more, k - 1, ss);
      Extend(cfg, ls + more[..k - 1], more[k - 1]);
      assert ls + more[..k - 1] + [more[k - 1]] == ls + more[..k];
    }
  }

  lemma AttemptRuns(cfg: Config, ls: seq<Label>, readOk: bool, markOk: bool, load: Load)
    requires Run(cfg, ls) && Primed(cfg, After(cfg, ls)) && (readOk ==> !After(cfg, ls).marker)
    requires GateOpen(load, After(cfg, ls).pod.limit)
    ensures Run(cfg, ls + Attempt(readOk, markOk, load))
    ensures var t := After(cfg, ls + Attempt(readOk, markOk, load));
      Primed(cfg, t) && t.marker == (After(cfg, ls).marker || markOk) && t.pod.limit == After(cfg, ls).pod.limit
  {
    var s, a := After(cfg, ls), Attempt(readOk, markOk, load);
    var ss := seq(ATTEMPT + 1, i => AttemptState(s, markOk, i));
    forall i | 0 <= i < ATTEMPT ensures Enabled(ss[i], a[i]) && ss[i + 1] == Apply(cfg, ss[i], a[i]) {
      AttemptAdvances(cfg, s, readOk, markOk, load, i);
    }
    RunAll(cfg, ls, a, |a|, ss);
    assert a[..|a|] == a;
  }

  /** The first good check of a pod that has just started, then the waits run out. */
  function Warmup(cfg: Config): seq<Label>
    requires cfg.minimumWait >= 0 && cfg.stability >= 0
  {
    [PodStart(true, true), Advance(cfg.minimumWait), CheckMarker(true), MinimumWait, Health(Probe(true, true)),
     Advance(cfg.stability)]
  }

  lemma WarmupPrimes(cfg: Config)
    requires cfg.minimumWait >= 0 && cfg.stability > 0 && cfg.maxUtilization >= 0.0
    ensures Run(cfg, Warmup(cfg)) && Primed(cfg, After(cfg, Warmup(cfg))) && !After(cfg, Warmup(cfg)).marker
    ensures After(cfg, Warmup(cfg)).pod.limit == cfg.maxUtilization
  {
    var w := Warmup(cfg);
    var up := Up(cfg.epoch, None, cfg.maxUtilization, Idle);
    var s1 := State(cfg.epoch, Some(Truncate(cfg.epoch)), false, up);
    var s2 := s1.(now := cfg.epoch + cfg.minimumWait);
    var s5 := s2.(pod := up.(healthySince := Some(s2.now)));
    var ss := [Initial(cfg), s1, s2, Goto(s2, AtMinimumWait), Goto(s2, AtHealth), s5, s5.(now := s5.now + cfg.stability)];
    RunAll(cfg, [], w, |w|, ss);
    assert [] + w[..|w|] == w;
  }

  function DoubleDecrement(cfg: Config, secondRead: bool): seq<Label>
    requires cfg.minimumWait >= 0 && cfg.stability >= 0
  {
    Warmup(cfg) + Attempt(true, !secondRead, QUIET) + Attempt(secondRead, true, QUIET)
  }

  /**
   A failed marker write (and a working second read), or a written marker and a failed second
   read, each lets one node lower the ASG twice with no clearing in between.
   */
  lemma DoubleDecrementRuns(cfg: Config, secondRead: bool)
    requires cfg.minimumWait >= 0 && cfg.stability > 0 && cfg.maxUtilization >= 0.0
    ensures var ls := DoubleDecrement(cfg, secondRead);
      && Run(cfg, ls)
      && ls[17] == SetAsg(true) && ls[30] == SetAsg(true)
      && (forall k | 0 <= k < |ls| :: !ls[k].ClearMarker?)
  {
    WarmupPrimes(cfg);
    QuietGateOpen(cfg.maxUtilization);
    AttemptRuns(cfg, Warmup(cfg), true, !secondRead, QUIET);
    AttemptRuns(cfg, Warmup(cfg) + Attempt(true, !secondRead, QUIET), secondRead, true, QUIET);
  }

  /** A hundred times more requested than any ready node offers, and an unready node to remove. */
  const OVERFULL := Load([SMALL, LARGE], [BUSY], LARGE)

  function LoweredWithoutRoom(cfg: Config): seq<Label>
    requires cfg.minimumWait >= 0 && cfg.stability >= 0
  {
    Warmup(cfg) + Attempt(true, true, OVERFULL)
  }

  /** So every configuration has a run that lowers the ASG with no room for the pods at any threshold. */
  lemma LoweredWithoutRoomRuns(cfg: Config, limit: real)
    requires cfg.minimumWait >= 0 && cfg.stability > 0 && cfg.maxUtilization > 0.0 && limit > 0.0
    ensures var ls := LoweredWithoutRoom(cfg);
      Run(cfg, ls) && ls[9] == Safety(true, OVERFULL) && ls[17] == SetAsg(true)
    ensures !RoomFor(OVERFULL.nodes, OVERFULL.pods, OVERFULL.removed, limit)
  {
    WarmupPrimes(cfg);
    UnreadyNodeRemoved(cfg.maxUtilization);
    UnreadyNodeRemoved(limit);
    AttemptRuns(cfg, Warmup(cfg), true, true, OVERFULL);
  }

  // ---- the minimum wait

  /** When a self-monitor first started on this node. */
  function FirstStart(cfg: Config, ls: seq<Label>): Option<int> {
    if ls == [] then None
    else
      var front := ls[..|ls| - 1];
      if FirstStart(cfg, front).Some? then FirstStart(cfg, front)
      else if ls[|ls| - 1].PodStart? then Some(Clock(cfg, front)) else None
  }

  ghost predicate StartsInv(cfg: Config, ls: seq<Label>, s: State) {
    && s.now == Clock(cfg, ls)
    && (FirstStart(cfg, ls).None? ==> s.pod.Down? && s.startAnnotation.None?)
    && (FirstStart(cfg, ls).Some? ==>
          var first := FirstStart(cfg, ls).value;
          && first <= s.now
          && (s.startAnnotation.Some? ==> s.startAnnotation.value > first - SECOND)
          && (s.pod.Up? ==> s.pod.start > first - SECOND))
  }

  lemma {:induction false} RunStartsInv(cfg: Config, ls: seq<Label>)
    requires Run(cfg, ls)
    ensures StartsInv(cfg, ls, After(cfg, ls))
  {
    if ls != [] {
      RunStartsInv(cfg, ls[..|ls| - 1]);
    }
  }

  /**
   Across any restarts and failed annotation writes, the ASG is never lowered before the first
   start on the node plus the minimum wait, less the fraction of a second the annotation drops.
   */
  lemma NeverBeforeMinimumWait(cfg: Config, ls: seq<Label>, j: nat)
    requires Run(cfg, ls) && j < |ls| && ls[j] == SetAsg(true)
    ensures FirstStart(cfg, ls[..j]).Some?
    ensures Clock(cfg, ls[..j]) > FirstStart(cfg, ls[..j]).value + cfg.minimumWait - SECOND
  {
    RunPrefix(cfg, ls, j);
    RunCallInv(cfg, ls[..j]);
    RunStartsInv(cfg, ls[..j]);
  }

  ghost predicate ApiWorks(ls: seq<Label>) {
    forall k | 0 <= k < |ls| && ls[k].PodStart? :: ls[k].readOk && ls[k].writeOk
  }

  ghost predicate WaitCarriedOver(first: Option<int>, s: State) {
    if first.None? then s.pod.Down? && s.startAnnotation.None?
    else
      && s.startAnnotation == Some(Truncate(first.value))
      && (s.pod.Up? ==> s.pod.start == first.value || s.pod.start == Truncate(first.value))
  }

  /** With the API working, a restart does not restart the wait. */
  lemma {:induction false} StartSurvivesRestarts(cfg: Config, ls: seq<Label>)
    requires Run(cfg, ls) && ApiWorks(ls)
    ensures WaitCarriedOver(FirstStart(cfg, ls), After(cfg, ls))
  {
    if ls != [] {
      var n := |ls| - 1;
      assert ApiWorks(ls[..n]);
      StartSurvivesRestarts(cfg, ls[..n]);
      RunStartsInv(cfg, ls[..n]);
    }
  }

  // ---- the raised threshold

  /** Some fallback has raised the threshold since the pod last started. */
  function Raised(cfg: Config, ls: seq<Label>): bool {
    if ls == [] then false
    else
      var l := ls[|ls| - 1];
      if l.PodStart? then false
      else Raised(cfg, ls[..|ls| - 1]) || (l.PreScale? && !l.level1 && l.utilization <= cfg.fallbackThreshold)
  }

  /** The "temporary" threshold lasts until the pod dies. */
  lemma {:induction false} ThresholdStaysRaised(cfg: Config, ls: seq<Label>)
    requires Run(cfg, ls) && After(cfg, ls).pod.Up?
    ensures After(cfg, ls).pod.limit == if Raised(cfg, ls) then cfg.fallbackThreshold else cfg.maxUtilization
  {
    if ls != [] && After(cfg, ls[..|ls| - 1]).pod.Up? {
      ThresholdStaysRaised(cfg, ls[..|ls| - 1]);
    }
  }

  // ---- spot health

  predicate GoodProbe(l: Label) { l == Health(Probe(true, true)) }

  /** A good check at h, in the present life of the pod. */
  ghost predicate GoodAt(ls: seq<Label>, h: int) {
    0 <= h < |ls| && GoodProbe(ls[h]) && forall k | h < k < |ls| :: !ls[k].PodStart?
  }

  ghost predicate GoodTwice(cfg: Config, ls: seq<Label>, h: int, g: int) {
    && GoodAt(ls, h) && GoodAt(ls, g) && h < g
    && Clock(cfg, ls[..g]) - Clock(cfg, ls[..h]) >= cfg.stability
  }

  ghost predicate HealthInv(cfg: Config, ls: seq<Label>, s: State) {
    && s.now == Clock(cfg, ls)
    && (s.pod.Up? && s.pod.healthySince.Some? ==>
          exists h :: GoodAt(ls, h) && Clock(cfg, ls[..h]) == s.pod.healthySince.value)
    && (s.pod.Up? && Depth(s.pod.pc) > 2 ==> exists h, g :: GoodTwice(cfg, ls, h, g))
  }

  lemma GoodStays(ls: seq<Label>, h: int, l: Label)
    requires GoodAt(ls, h) && !l.PodStart?
    ensures GoodAt(ls + [l], h) && (ls + [l])[..h] == ls[..h]
  {
  }

  lemma StepKeepsHealthInv(cfg: Config, ls: seq<Label>, s: State, l: Label)
    requires HealthInv(cfg, ls, s) && Enabled(s, l)
    ensures HealthInv(cfg, ls + [l], Apply(cfg, s, l))
  {
    var t := Apply(cfg, s, l);
    assert (ls + [l])[..|ls|] == ls && (ls + [l])[|ls|] == l;
    if t.pod.Up? && !l.PodStart? {
      if s.pod.healthySince.Some? {
        var h :| GoodAt(ls, h) && Clock(cfg, ls[..h]) == s.pod.healthySince.value;
        GoodStays(ls, h, l);
        assert l.Health? && t.pod.pc.AtSafety? ==> GoodTwice(cfg, ls + [l], h, |ls|);
      } else if t.pod.healthySince.Some? {
        assert GoodAt(ls + [l], |ls|);
      }
      if Depth(s.pod.pc) > 2 {
        var h, g :| GoodTwice(cfg, ls, h, g);
        GoodStays(ls, h, l);
        GoodStays(ls, g, l);
        assert GoodTwice(cfg, ls + [l], h, g);
      }
    }
  }

  lemma {:induction false} RunHealthInv(cfg: Config, ls: seq<Label>)
    requires Run(cfg, ls)
    ensures HealthInv(cfg, ls, After(cfg, ls))
  {
    if ls != [] {
      var n := |ls| - 1;
      RunHealthInv(cfg, ls[..n]);
      StepKeepsHealthInv(cfg, ls[..n], After(cfg, ls[..n]), ls[n]);
      assert ls[..n] + [ls[n]] == ls;
    }
  }

  /**
   Every lowering of the ASG follows two good checks by the same pod, at least the stability
   duration apart; what happened between them is not promised.
   */
  lemma DecrementAfterTwoGoodChecks(cfg: Config, ls: seq<Label>, j: nat)
    requires Run(cfg, ls) && j < |ls| && ls[j] == SetAsg(true)
    ensures exists h, g :: GoodTwice(cfg, ls[..j], h, g)
  {
    RunPrefix(cfg, ls, j);
    RunHealthInv(cfg, ls[..j]);
  }

  // ---- the stability timer in a run

  function Observe(now: int, p: Probe): Timer.Observation {
    if p.ProbeError? then Timer.Failed else Timer.Seen(now, p.healthy, p.ready)
  }

  /** The health checks of the present life of the pod. */
  function Checks(cfg: Config, ls: seq<Label>): seq<Timer.Observation> {
    if ls == [] then []
    else
      var front, l := ls[..|ls| - 1], ls[|ls| - 1];
      if l.PodStart? then []
      else if l.Health? then Checks(cfg, front) + [Observe(Clock(cfg, front), l.probe)]
      else Checks(cfg, front)
  }

  lemma ChecksLast(cfg: Config, ls: seq<Label>, l: Label)
    ensures Checks(cfg, ls + [l]) ==
      if l.PodStart? then []
      else if l.Health? then Checks(cfg, ls) + [Observe(Clock(cfg, ls), l.probe)] else Checks(cfg, ls)
  {
    assert (ls + [l])[..|ls|] == ls;
  }

  lemma SelfTimerLast(os: seq<Timer.Observation>, o: Timer.Observation, duration: int)
    ensures Timer.SelfTimer(os + [o], duration) == Timer.SelfStore(Timer.SelfTimer(os, duration), o, duration)
  {
    assert (os + [o])[..|os|] == os;
  }

  /** The pod's timer is the self-monitor's timer over its checks. */
  lemma {:induction false} TimerFollowsChecks(cfg: Config, ls: seq<Label>)
    requires Run(cfg, ls) && After(cfg, ls).pod.Up?
    ensures After(cfg, ls).pod.healthySince == Timer.SelfTimer(Checks(cfg, ls), cfg.stability)
  {
    if ls != [] {
      var n := |ls| - 1;
      var front, l := ls[..n], ls[n];
      assert front + [l] == ls;
      ChecksLast(cfg, front, l);
      if !l.PodStart? {
        TimerFollowsChecks(cfg, front);
        RunCallInv(cfg, front);
        if l.Health? {
          SelfTimerLast(Checks(cfg, front), Observe(Clock(cfg, front), l.probe), cfg.stability);
        }
      }
    }
  }

  lemma {:induction false} ClockOnward(cfg: Config, ls: seq<Label>)
    ensures Timer.Clocked(Checks(cfg, ls))
    ensures forall i | 0 <= i < |Checks(cfg, ls)| && Checks(cfg, ls)[i].Seen? :: Checks(cfg, ls)[i].now <= Clock(cfg, ls)
  {
    if ls != [] {
      ClockOnward(cfg, ls[..|ls| - 1]);
    }
  }

  /** Check h, the last of this pod, passed the self-monitor's timer. */
  ghost predicate TimerPassedAt(cfg: Config, ls: seq<Label>, h: int) {
    && 0 <= h < |ls| && ls[h].Health? && (forall k | h < k < |ls| :: !ls[k].Health? && !ls[k].PodStart?)
    && Checks(cfg, ls) != [] && Timer.SelfPasses(Checks(cfg, ls), |Checks(cfg, ls)| - 1, cfg.stability)
  }

  /** A health check lets the pod go on exactly when it passes that timer. */
  lemma HealthGateIff(cfg: Config, ls: seq<Label>, p: Probe)
    requires Run(cfg, ls) && Enabled(After(cfg, ls), Health(p))
    ensures Apply(cfg, After(cfg, ls), Health(p)).pod.pc.AtSafety? <==> TimerPassedAt(cfg, ls + [Health(p)], |ls|)
  {
    RunCallInv(cfg, ls);
    TimerFollowsChecks(cfg, ls);
    ChecksLast(cfg, ls, Health(p));
    var os := Checks(cfg, ls);
    assert (os + [Observe(Clock(cfg, ls), p)])[..|os|] == os;
  }

  lemma OtherStepKeepsTimer(cfg: Config, ls: seq<Label>, l: Label, h: int)
    requires TimerPassedAt(cfg, ls, h) && !l.Health? && !l.PodStart?
    ensures TimerPassedAt(cfg, ls + [l], h)
  {
    ChecksLast(cfg, ls, l);
  }

  lemma {:induction false} DeepCallPassedTimer(cfg: Config, ls: seq<Label>)
    requires Run(cfg, ls) && After(cfg, ls).pod.Up? && Depth(After(cfg, ls).pod.pc) > 2
    ensures exists h :: TimerPassedAt(cfg, ls, h)
    decreases |ls|
  {
    var n := |ls| - 1;
    var front, l := ls[..n], ls[n];
    assert front + [l] == ls;
    if l.Health? {
      HealthGateIff(cfg, front, l.probe);
    } else {
      DeepCallPassedTimer(cfg, front);
      var h :| TimerPassedAt(cfg, front, h);
      OtherStepKeepsTimer(cfg, front, l, h);
    }
  }

  /**
   Every lowering of the ASG rests on the pod's last health check, which passed; `Monitor` would
   have held it back exactly when an outage lies between the pod's first good check and it with
   no good check after the outage old enough.
   */
  lemma LoweredThroughOutageIff(cfg: Config, ls: seq<Label>, j: nat) returns (h: int, k: int)
    requires Run(cfg, ls) && j < |ls| && ls[j] == SetAsg(true)
    ensures TimerPassedAt(cfg, ls[..j], h)
    ensures var os, n := Checks(cfg, ls[..j]), |Checks(cfg, ls[..j])| - 1;
      && Timer.Good(os[n]) && Timer.FirstGood(os[..n], k)
      && (Timer.MonitorPasses(os, n, cfg.stability) <==>
            !exists b :: Timer.RecentOutage(os, n, k, b, cfg.stability))
  {
    RunPrefix(cfg, ls, j);
    DeepCallPassedTimer(cfg, ls[..j]);
    h :| TimerPassedAt(cfg, ls[..j], h);
    var os, n := Checks(cfg, ls[..j]), |Checks(cfg, ls[..j])| - 1;
    ClockOnward(cfg, ls[..j]);
    Timer.SelfPassesIff(os, n, cfg.stability);
    k :| Timer.FirstGood(os[..n], k) && os[n].now - os[k].now >= cfg.stability;
    Timer.SelfBreaksPromiseIff(os, n, k, cfg.stability);
  }

  const OUTAGE := [CheckMarker(true), MinimumWait, Health(Probe(false, true))]

  function LoweredAfterOutage(cfg: Config): seq<Label>
    requires cfg.minimumWait >= 0 && cfg.stability >= 0
  {
    Warmup(cfg) + OUTAGE + Attempt(true, true, QUIET)
  }

  lemma OutageRuns(cfg: Config, ls: seq<Label>)
    requires Run(cfg, ls) && Primed(cfg, After(cfg, ls)) && !After(cfg, ls).marker
    ensures Run(cfg, ls + OUTAGE) && After(cfg, ls + OUTAGE) == After(cfg, ls)
  {
    var s := After(cfg, ls);
    RunAll(cfg, ls, OUTAGE, 3, [s, Goto(s, AtMinimumWait), Goto(s, AtHealth), s]);
    assert OUTAGE[..3] == OUTAGE;
  }

  /** For every configuration, a run that sees the spot group unhealthy and at once lowers the ASG. */
  lemma LoweredAfterOutageRuns(cfg: Config)
    requires cfg.minimumWait >= 0 && cfg.stability > 0 && cfg.maxUtilization >= 0.0
    ensures var ls := LoweredAfterOutage(cfg);
      Run(cfg, ls) && ls[8] == Health(Probe(false, true)) && ls[20] == SetAsg(true)
      && (forall i | 8 < i < 20 :: !ls[i].Advance?)
  {
    WarmupPrimes(cfg);
    OutageRuns(cfg, Warmup(cfg));
    QuietGateOpen(cfg.maxUtilization);
    AttemptRuns(cfg, Warmup(cfg) + OUTAGE, true, true, QUIET);
  }
}
