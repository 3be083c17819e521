/**
 The self-monitor of one on-demand node (pkg/spotguard/self_monitor.go with
 pkg/spotguard/scaledown_executor.go) as a transition system.  The pod may die between any
 two steps; only the node's two annotations survive.  Every API call may fail.
 Times are in nanoseconds.
 */
module SelfMonitor {
  import opened Wrappers
  import opened HealthCheck
  import opened KubeNodes
  import opened Utilization

  const SECOND: int := 1_000_000_000
  const TERMINATION_WAIT: int := 300 * SECOND

  datatype Config = Config(
    epoch: int, minimumWait: int, stability: int,
    maxUtilization: real, fallbackThreshold: real, enablePreScale: bool)

  datatype Probe = ProbeError | Probe(healthy: bool, ready: bool)
  /** What the capacity check lists: all nodes, all pods, and this node. */
  datatype Load = Load(nodes: seq<Node>, pods: seq<Utilization.Pod>, removed: Node)
  datatype NodeRead = ReadFailed | Deleting | Alive

  datatype Pc =
    | Idle | AtMinimumWait | AtHealth | AtSafety | AtPreScale | AtJitter | AtMark
    | AtTaint | AtCordon | AtDrain | AtReschedule | AtDescribe | AtSet
    | Waiting(from: int) | AtClear

  datatype Pod = Down | Up(start: int, healthySince: Option<int>, limit: real, pc: Pc)

  datatype State = State(now: int, startAnnotation: Option<int>, marker: bool, pod: Pod)

  datatype Label =
    | Advance(d: nat) | Kill | PodStart(readOk: bool, writeOk: bool)
    | CheckMarker(readOk: bool) | MinimumWait | Health(probe: Probe)
    | Safety(podsOk: bool, load: Load) | PreScale(level1: bool, utilization: real)
    | JitterOver | Mark(ok: bool)
    | Taint(ok: bool) | Cordon(ok: bool) | Drain(ok: bool) | Reschedule(ok: bool)
    | DescribeAsg(ok: bool) | SetAsg(ok: bool)
    | WaitTick(read: NodeRead) | ClearMarker(ok: bool)

  function Initial(cfg: Config): State { State(cfg.epoch, None, false, Down) }

  /** Annotations hold whole seconds. */
  function Truncate(t: int): int { t - t % SECOND }

  ghost predicate GateOpen(l: Load, limit: real) { GateOn(l.nodes, l.pods, l.removed, limit) }

  predicate Enabled(s: State, l: Label) {
    match l
    case Advance(_) => true
    case Kill => s.pod.Up?
    case PodStart(_, _) => s.pod.Down?
    case _ =>
      s.pod.Up? &&
      match s.pod.pc
      case Idle => l.CheckMarker?
      case AtMinimumWait => l.MinimumWait?
      case AtHealth => l.Health?
      case AtSafety => l.Safety?
      case AtPreScale => l.PreScale?
      case AtJitter => l.JitterOver?
      case AtMark => l.Mark?
      case AtTaint => l.Taint?
      case AtCordon => l.Cordon?
      case AtDrain => l.Drain?
      case AtReschedule => l.Reschedule?
      case AtDescribe => l.DescribeAsg?
      case AtSet => l.SetAsg?
      case Waiting(_) => l.WaitTick?
      case AtClear => l.ClearMarker?
  }

  function Goto(s: State, pc: Pc): State
    requires s.pod.Up?
  {
    s.(pod := s.pod.(pc := pc))
  }

  ghost function Apply(cfg: Config, s: State, l: Label): State
    requires Enabled(s, l)
  {
    match l
    case Advance(d) => s.(now := s.now + d)
    case Kill => s.(pod := Down)
    case PodStart(readOk, writeOk) =>
      if readOk && s.startAnnotation.Some? then
        s.(pod := Up(s.startAnnotation.value, None, cfg.maxUtilization, Idle))
      else
        s.(pod := Up(s.now, None, cfg.maxUtilization, Idle),
           startAnnotation := if readOk && writeOk then Some(Truncate(s.now)) else s.startAnnotation)
    case CheckMarker(readOk) =>
      if readOk && s.marker then Goto(s, Waiting(s.now)) else Goto(s, AtMinimumWait)
    case MinimumWait =>
      if s.now - s.pod.start < cfg.minimumWait then Goto(s, Idle) else Goto(s, AtHealth)
    case Health(probe) =>
      if probe.ProbeError? || !probe.healthy || !probe.ready then Goto(s, Idle)
      else
        var r := Track(true, s.now, cfg.stability, s.pod.healthySince);
        s.(pod := s.pod.(healthySince := r.healthySince, pc := if r.isStable then AtSafety else Idle))
    case Safety(podsOk, load) =>
      if podsOk && GateOpen(load, s.pod.limit) then Goto(s, AtJitter)
      else if podsOk && cfg.enablePreScale then Goto(s, AtPreScale)
      else Goto(s, Idle)
    case PreScale(level1, utilization) =>
      var limit := if !level1 && utilization <= cfg.fallbackThreshold then cfg.fallbackThreshold else s.pod.limit;
      s.(pod := s.pod.(limit := limit, pc := Idle))
    case JitterOver => Goto(s, AtMark)
    case Mark(ok) => Goto(s, AtTaint).(marker := s.marker || ok)
    case Taint(ok) => Goto(s, if ok then AtCordon else Idle)
    case Cordon(ok) => Goto(s, if ok then AtDrain else Idle)
    case Drain(ok) => Goto(s, if ok then AtReschedule else Idle)
    case Reschedule(_) => Goto(s, AtDescribe)
    case DescribeAsg(ok) => Goto(s, if ok then AtSet else Idle)
    case SetAsg(ok) => Goto(s, if ok then Waiting(s.now) else Idle)
    case WaitTick(read) =>
      if !read.Alive? then Goto(s, Idle)
      else if s.now - s.pod.pc.from >= TERMINATION_WAIT then Goto(s, AtClear) else s
    case ClearMarker(ok) => Goto(s, Idle).(marker := s.marker && !ok)
  }

  ghost function Execute(cfg: Config, ls: seq<Label>): Option<State> {
    if ls == [] then Some(Initial(cfg))
    else
      var before := Execute(cfg, ls[..|ls| - 1]);
      var l := ls[|ls| - 1];
      if before.Some? && Enabled(before.value, l) then Some(Apply(cfg, before.value, l)) else None
  }

  ghost predicate Run(cfg: Config, ls: seq<Label>) { Execute(cfg, ls).Some? }

  ghost function After(cfg: Config, ls: seq<Label>): State
    requires Run(cfg, ls)
  {
    Execute(cfg, ls).value
  }

  lemma {:induction false} RunPrefix(cfg: Config, ls: seq<Label>, i: nat)
    requires Run(cfg, ls) && i <= |ls|
    ensures Run(cfg, ls[..i])
    ensures i < |ls| ==>
      && Enabled(After(cfg, ls[..i]), ls[i])
      && Run(cfg, ls[..i + 1])
      && After(cfg, ls[..i + 1]) == Apply(cfg, After(cfg, ls[..i]), ls[i])
    decreases |ls|
  {
    var n := |ls| - 1;
    if i >= n {
      assert ls[..|ls|] == ls;
    } else {
      RunPrefix(cfg, ls[..n], i);
      assert ls[..n][..i] == ls[..i] && ls[..n][..i + 1] == ls[..i + 1];
    }
  }

  /** The time at which the run has arrived. */
  function Clock(cfg: Config, ls: seq<Label>): int {
    if ls == [] then cfg.epoch
    else Clock(cfg, ls[..|ls| - 1]) + (if ls[|ls| - 1].Advance? then ls[|ls| - 1].d else 0)
  }

  // ---- what one call of checkAndScaleDown has been through

  /** The steps since the last start of a call, clock ticks left out. */
  function Call(ls: seq<Label>): seq<Label> {
    if ls == [] then []
    else
      var front, l := ls[..|ls| - 1], ls[|ls| - 1];
      if l.Advance? then Call(front) else if l.CheckMarker? then [l] else Call(front) + [l]
  }

  /** What step i of a call must have been for the call to get further. */
  ghost predicate StepOk(cfg: Config, i: int, l: Label) {
    match i
    case 0 => l.CheckMarker?
    case 1 => l.MinimumWait?
    case 2 => l == Health(Probe(true, true))
    case 3 => l.Safety? && l.podsOk && (GateOpen(l.load, cfg.maxUtilization) || GateOpen(l.load, cfg.fallbackThreshold))
    case 4 => l.JitterOver?
    case 5 => l.Mark?
    case 6 => l == Taint(true)
    case 7 => l == Cordon(true)
    case 8 => l == Drain(true)
    case 9 => l.Reschedule?
    case _ => l == DescribeAsg(true)
  }

  const FULL_CALL: int := 11

  ghost predicate Passed(cfg: Config, c: seq<Label>, n: int) {
    |c| == n && forall i | 0 <= i < n :: StepOk(cfg, i, c[i])
  }

  /** How many steps of a call lie behind a pod at `pc`; 0 outside a call. */
  function Depth(pc: Pc): int {
    match pc
    case AtMinimumWait => 1
    case AtHealth => 2
    case AtSafety => 3
    case AtJitter => 4
    case AtMark => 5
    case AtTaint => 6
    case AtCordon => 7
    case AtDrain => 8
    case AtReschedule => 9
    case AtDescribe => 10
    case AtSet => 11
    case _ => 0
  }

  ghost predicate CallInv(cfg: Config, ls: seq<Label>, s: State) {
    && s.now == Clock(cfg, ls)
    && (s.pod.Up? ==>
          && (s.pod.limit == cfg.maxUtilization || s.pod.limit == cfg.fallbackThreshold)
          && (Depth(s.pod.pc) > 0 ==> Passed(cfg, Call(ls), Depth(s.pod.pc)))
          && (Depth(s.pod.pc) > 1 ==> s.now - s.pod.start >= cfg.minimumWait)
          && (Depth(s.pod.pc) > 5 ==> Marked(Call(ls), s.marker)))
  }

  /** If the call's marker write succeeded, the marker is there. */
  ghost predicate Marked(c: seq<Label>, marker: bool) {
    |c| > 5 && c[5].Mark? && (c[5].ok ==> marker)
  }

  lemma CallGrows(cfg: Config, ls: seq<Label>, l: Label)
    ensures Clock(cfg, ls + [l]) == Clock(cfg, ls) + (if l.Advance? then l.d else 0)
    ensures Call(ls + [l]) == if l.Advance? then Call(ls) else if l.CheckMarker? then [l] else Call(ls) + [l]
  {
    assert (ls + [l])[..|ls|] == ls;
  }

  lemma StepKeepsPassed(cfg: Config, c: seq<Label>, s: State, l: Label)
    requires s.pod.Up? && Enabled(s, l) && !l.Advance? && !l.CheckMarker?
    requires s.pod.limit == cfg.maxUtilization || s.pod.limit == cfg.fallbackThreshold
    requires Depth(s.pod.pc) > 0 && Passed(cfg, c, Depth(s.pod.pc))
    ensures var t := Apply(cfg, s, l);
      t.pod.Up? && Depth(t.pod.pc) > 0 ==> Passed(cfg, c + [l], Depth(t.pod.pc))
  {
  }

  lemma StepKeepsLimits(cfg: Config, s: State, l: Label)
    requires Enabled(s, l)
    requires s.pod.Up? ==> s.pod.limit == cfg.maxUtilization || s.pod.limit == cfg.fallbackThreshold
    requires s.pod.Up? && Depth(s.pod.pc) > 1 ==> s.now - s.pod.start >= cfg.minimumWait
    ensures var t := Apply(cfg, s, l);
      t.pod.Up? ==>
        && (t.pod.limit == cfg.maxUtilization || t.pod.limit == cfg.fallbackThreshold)
        && (Depth(t.pod.pc) > 1 ==> t.now - t.pod.start >= cfg.minimumWait)
  {
  }

  lemma StepKeepsMarked(cfg: Config, c: seq<Label>, s: State, l: Label)
    requires s.pod.Up? && Enabled(s, l) && !l.Advance? && !l.CheckMarker?
    requires Depth(s.pod.pc) > 0 && |c| == Depth(s.pod.pc)
    requires Depth(s.pod.pc) > 5 ==> Marked(c, s.marker)
    ensures var t := Apply(cfg, s, l);
      t.pod.Up? && Depth(t.pod.pc) > 5 ==> Marked(c + [l], t.marker)
  {
  }

  lemma OtherStepKeepsCall(cfg: Config, c: seq<Label>, s: State, l: Label)
    requires Enabled(s, l) && !l.Advance?
    requires s.pod.Up? ==> s.pod.limit == cfg.maxUtilization || s.pod.limit == cfg.fallbackThreshold
    requires s.pod.Up? && Depth(s.pod.pc) > 0 ==> Passed(cfg, c, Depth(s.pod.pc))
    requires s.pod.Up? && Depth(s.pod.pc) > 5 ==> Marked(c, s.marker)
    ensures var t, d := Apply(cfg, s, l), if l.CheckMarker? then [l] else c + [l];
      t.pod.Up? && Depth(t.pod.pc) > 0 ==>
        Passed(cfg, d, Depth(t.pod.pc)) && (Depth(t.pod.pc) > 5 ==> Marked(d, t.marker))
  {
    if s.pod.Up? && Depth(s.pod.pc) > 0 {
      StepKeepsPassed(cfg, c, s, l);
      StepKeepsMarked(cfg, c, s, l);
    }
  }

  lemma StepKeepsCallInv(cfg: Config, ls: seq<Label>, s: State, l: Label)
    requires CallInv(cfg, ls, s) && Enabled(s, l)
    ensures CallInv(cfg, ls + [l], Apply(cfg, s, l))
  {
    CallGrows(cfg, ls, l);
    StepKeepsLimits(cfg, s, l);
    if !l.Advance? {
      OtherStepKeepsCall(cfg, Call(ls), s, l);
    }
  }

  lemma {:induction false} RunCallInv(cfg: Config, ls: seq<Label>)
    requires Run(cfg, ls)
    ensures CallInv(cfg, ls, After(cfg, ls))
  {
    if ls != [] {
      var n := |ls| - 1;
      RunCallInv(cfg, ls[..n]);
      StepKeepsCallInv(cfg, ls[..n], After(cfg, ls[..n]), ls[n]);
      assert ls[..n] + [ls[n]] == ls;
    }
  }

  /**
   Every lowering of the ASG comes at the end of one call that, without interruption, found
   the wait over, the spot group good, the pods movable and the gate open, and then tainted,
   cordoned and drained the node.
   */
  lemma DecrementFollowsFullCall(cfg: Config, ls: seq<Label>, j: nat)
    requires Run(cfg, ls) && j < |ls| && ls[j] == SetAsg(true)
    ensures Passed(cfg, Call(ls[..j]), FULL_CALL)
  {
    RunPrefix(cfg, ls, j);
    RunCallInv(cfg, ls[..j]);
  }

  function Larger(a: real, b: real): real { if a > b then a else b }

  lemma RoomGrows(l: Load, limit: real, larger: real)
    requires CpuLeft(l.nodes, l.removed) >= 0 && MemoryLeft(l.nodes, l.removed) >= 0
    requires limit <= larger && RoomFor(l.nodes, l.pods, l.removed, limit)
    ensures RoomFor(l.nodes, l.pods, l.removed, larger)
  {
    FitsGrows(UsedCpu(l.pods), CpuLeft(l.nodes, l.removed), limit, larger);
    FitsGrows(UsedMemory(l.pods), MemoryLeft(l.nodes, l.removed), limit, larger);
  }

  lemma OpenGateLeavesRoom(l: Load, limit: real, larger: real)
    requires CpuLeft(l.nodes, l.removed) > 0 && MemoryLeft(l.nodes, l.removed) >= 0
    requires GateOpen(l, limit) && limit <= larger
    ensures RoomFor(l.nodes, l.pods, l.removed, larger) && ClusterUtilization(l.nodes, l.pods) <= larger
  {
    GateBoundsUtilization(l.nodes, l.pods, l.removed, limit);
    RoomGrows(l, limit, larger);
  }

  /**
   So on the snapshot of nodes and pods which that call listed, if some CPU and no negative
   memory is left without the node, the pods fit what is left within the larger of the
   configured and the fallback threshold, and the plain utilisation is within it as well.
   */
  lemma DecrementLeavesRoom(cfg: Config, ls: seq<Label>, j: nat)
    requires Run(cfg, ls) && j < |ls| && ls[j] == SetAsg(true)
    ensures |Call(ls[..j])| == FULL_CALL && Call(ls[..j])[3].Safety?
    ensures var l, limit := Call(ls[..j])[3].load, Larger(cfg.maxUtilization, cfg.fallbackThreshold);
      CpuLeft(l.nodes, l.removed) > 0 && MemoryLeft(l.nodes, l.removed) >= 0 ==>
        RoomFor(l.nodes, l.pods, l.removed, limit) && ClusterUtilization(l.nodes, l.pods) <= limit
  {
    DecrementFollowsFullCall(cfg, ls, j);
    assert StepOk(cfg, 3, Call(ls[..j])[3]);
    var l, limit := Call(ls[..j])[3].load, Larger(cfg.maxUtilization, cfg.fallbackThreshold);
    if CpuLeft(l.nodes, l.removed) > 0 && MemoryLeft(l.nodes, l.removed) >= 0 {
      if GateOpen(l, cfg.maxUtilization) {
        OpenGateLeavesRoom(l, cfg.maxUtilization, limit);
      } else {
        OpenGateLeavesRoom(l, cfg.fallbackThreshold, limit);
      }
    }
  }
}
