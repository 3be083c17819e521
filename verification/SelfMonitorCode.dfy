/**
 checkAndScaleDown with the executor it calls, as the code writes them
 (pkg/spotguard/self_monitor.go, pkg/spotguard/scaledown_executor.go), shown to be a path of
 the self-monitor's transition system.
 */
module SelfMonitorCode {
  import opened Wrappers
  import opened HealthCheck
  import opened SelfMonitor
  import opened Utilization

  /** What describing the ASG returns: an error, no group, or the group. */
  datatype Described = DescribeError | NotFound | Found(desired: int, minSize: int)

  predicate CanLower(d: Described) { d.Found? && d.desired - 1 >= d.minSize }

  /** What the calls made in one check return. */
  datatype World = World(
    markerRead: bool, probe: Probe, podsOk: bool, load: Load, level1: bool, utilization: real, markOk: bool,
    taintOk: bool, cordonOk: bool, drainOk: bool, rescheduled: bool, group: Described, setOk: bool)

  /** The step is one the check takes itself after its first and reports what its call returned. */
  predicate Reflects(w: World, l: Label) {
    match l
    case MinimumWait => true
    case Health(probe) => probe == w.probe
    case Safety(podsOk, load) => podsOk == w.podsOk && load == w.load
    case PreScale(level1, utilization) => level1 == w.level1 && utilization == w.utilization
    case JitterOver => true
    case Mark(ok) => ok == w.markOk
    case Taint(ok) => ok == w.taintOk
    case Cordon(ok) => ok == w.cordonOk
    case Drain(ok) => ok == w.drainOk
    case Reschedule(ok) => ok == w.rescheduled
    case DescribeAsg(ok) => ok == CanLower(w.group)
    case SetAsg(ok) => ok == w.setOk
    case _ => false
  }

  ghost predicate AllReflect(w: World, t: seq<Label>) { forall l | l in t :: Reflects(w, l) }

  ghost function Walk(cfg: Config, s: State, t: seq<Label>): Option<State> {
    if t == [] then Some(s)
    else
      var before, l := Walk(cfg, s, t[..|t| - 1]), t[|t| - 1];
      if before.Some? && Enabled(before.value, l) then Some(Apply(cfg, before.value, l)) else None
  }

  lemma WalkOne(cfg: Config, s: State, t: seq<Label>, l: Label)
    requires Walk(cfg, s, t).Some? && Enabled(Walk(cfg, s, t).value, l)
    ensures Walk(cfg, s, t + [l]) == Some(Apply(cfg, Walk(cfg, s, t).value, l))
  {
    assert (t + [l])[..|t|] == t;
  }

  lemma {:induction false} WalkAll(cfg: Config, s: State, t: seq<Label>, u: seq<Label>)
    requires Walk(cfg, s, t).Some?
    ensures Walk(cfg, s, t + u) == Walk(cfg, Walk(cfg, s, t).value, u)
  {
    if u == [] {
      assert t + u == t;
    } else {
      var n := |u| - 1;
      WalkAll(cfg, s, t, u[..n]);
      assert (t + u)[..|t + u| - 1] == t + u[..n];
    }
  }

  /** Steps true to the world lead from one state to another. */
  ghost predicate Path(cfg: Config, w: World, s: State, t: seq<Label>, s': State) {
    Walk(cfg, s, t) == Some(s') && AllReflect(w, t)
  }

  lemma PathOne(cfg: Config, w: World, s: State, t: seq<Label>, s': State, l: Label)
    requires Path(cfg, w, s, t, s') && Enabled(s', l) && Reflects(w, l)
    ensures Path(cfg, w, s, t + [l], Apply(cfg, s', l))
  {
    WalkOne(cfg, s, t, l);
  }

  lemma PathAll(cfg: Config, w: World, s: State, t: seq<Label>, s': State, u: seq<Label>, s'': State)
    requires Path(cfg, w, s, t, s') && Path(cfg, w, s', u, s'')
    ensures Path(cfg, w, s, t + u, s'')
  {
    WalkAll(cfg, s, t, u);
  }

  predicate Over(s: State) { s.pod.Up? && (s.pod.pc.Idle? || s.pod.pc.Waiting?) }

  /** One whole check from idle, true to the world. */
  ghost predicate WholeCheck(cfg: Config, s: State, w: World, t: seq<Label>) {
    && t != [] && t[0] == CheckMarker(w.markerRead) && AllReflect(w, t[1..])
    && Walk(cfg, s, t).Some? && Over(Walk(cfg, s, t).value)
  }

  lemma {:induction false} PrefixesWalk(cfg: Config, s: State, t: seq<Label>, k: nat)
    requires k < |t| && Walk(cfg, s, t).Some?
    ensures Walk(cfg, s, t[..k]).Some? && Enabled(Walk(cfg, s, t[..k]).value, t[k])
    decreases |t|
  {
    var n := |t| - 1;
    if k < n {
      PrefixesWalk(cfg, s, t[..n], k);
      assert t[..n][..k] == t[..k];
    }
  }

  /** The state machine has no choice of its own: the world fixes the step, and none follows the last. */
  lemma WorldDecides(s: State, w: World, a: Label, b: Label)
    requires Enabled(s, a) && Enabled(s, b) && Reflects(w, a) && Reflects(w, b)
    ensures a == b && !Over(s)
  {
  }

  lemma {:induction false} SamePrefix(cfg: Config, s: State, w: World, t: seq<Label>, u: seq<Label>, k: nat)
    requires WholeCheck(cfg, s, w, t) && WholeCheck(cfg, s, w, u) && k <= |t| && k <= |u|
    ensures t[..k] == u[..k]
  {
    if k > 1 {
      var n := k - 1;
      SamePrefix(cfg, s, w, t, u, n);
      PrefixesWalk(cfg, s, t, n);
      PrefixesWalk(cfg, s, u, n);
      assert t[1..][n - 1] == t[n] && u[1..][n - 1] == u[n];
      WorldDecides(Walk(cfg, s, t[..n]).value, w, t[n], u[n]);
    }
  }

  lemma NoLonger(cfg: Config, s: State, w: World, t: seq<Label>, u: seq<Label>)
    requires WholeCheck(cfg, s, w, t) && WholeCheck(cfg, s, w, u) && |t| <= |u|
    ensures t == u
  {
    var n := |t|;
    SamePrefix(cfg, s, w, t, u, n);
    assert t[..n] == t;
    if n < |u| {
      PrefixesWalk(cfg, s, u, n);
      assert u[1..][n - 1] == u[n];
      WorldDecides(Walk(cfg, s, t).value, w, u[n], u[n]);
    }
  }

  /** The world leaves exactly one check, so the code takes the only one there is. */
  lemma CheckUnique(cfg: Config, s: State, w: World, t: seq<Label>, u: seq<Label>)
    requires WholeCheck(cfg, s, w, t) && WholeCheck(cfg, s, w, u)
    ensures t == u
  {
    if |t| <= |u| {
      NoLonger(cfg, s, w, t, u);
    } else {
      NoLonger(cfg, s, w, u, t);
    }
  }

  /** One instance less, unless the group is not there or would fall below its minimum. */
  method LowerTarget(group: Described) returns (target: Option<int>)
    ensures target.Some? <==> CanLower(group)
    ensures target.Some? ==> target.value + 1 == group.desired && target.value >= group.minSize
  {
    if group.DescribeError? {
      return None;
    }
    if group.NotFound? {
      return None;
    }
    var newDesired := group.desired - 1;
    if newDesired < group.minSize {
      return None;
    }
    return Some(newDesired);
  }

  /** The pod's own fields and the node's annotations. */
  class Monitor {
    const startTime: int
    var healthySince: Option<int>
    var maxUtilization: real
    var startAnnotation: Option<int>
    var marker: bool

    constructor (startTime: int, maxUtilization: real, startAnnotation: Option<int>, marker: bool)
      ensures View(0, Idle) == State(0, startAnnotation, marker, Up(startTime, None, maxUtilization, Idle))
    {
      this.startTime, this.healthySince, this.maxUtilization := startTime, None, maxUtilization;
      this.startAnnotation, this.marker := startAnnotation, marker;
    }

    ghost function View(now: int, pc: Pc): State
      reads this
    {
      State(now, startAnnotation, marker, Up(startTime, healthySince, maxUtilization, pc))
    }

    /** The health check and the stability timer. */
    method PassHealth(cfg: Config, now: int, w: World) returns (go: bool, t: seq<Label>)
      modifies this`healthySince
      ensures Path(cfg, w, old(View(now, AtMinimumWait)), t, View(now, if go then AtSafety else Idle))
    {
      ghost var s := View(now, AtMinimumWait);
      t, go := [], false;
      PathOne(cfg, w, s, t, s, MinimumWait);
      t := t + [MinimumWait];
      if now - startTime < cfg.minimumWait {
        return;
      }
      PathOne(cfg, w, s, t, View(now, AtHealth), Health(w.probe));
      t := t + [Health(w.probe)];
      if w.probe.ProbeError? {
        return;
      }
      var status := Track(w.probe.healthy && w.probe.ready, now, cfg.stability, healthySince);
      if !w.probe.healthy {
        return;
      }
      if !w.probe.ready {
        return;
      }
      healthySince := status.healthySince;
      go := status.isStable;
    }

    /** The safety check, and pre-scaling when it fails for lack of capacity. */
    method PassSafety(cfg: Config, now: int, w: World) returns (go: bool, t: seq<Label>)
      modifies this`maxUtilization
      ensures Path(cfg, w, old(View(now, AtSafety)), t, View(now, if go then AtJitter else Idle))
    {
      ghost var s := View(now, AtSafety);
      t, go := [], false;
      PathOne(cfg, w, s, t, s, Safety(w.podsOk, w.load));
      t := t + [Safety(w.podsOk, w.load)];
      var open := HasClusterCapacityBuffer(w.load.nodes, w.load.pods, w.load.removed, maxUtilization);
      if w.podsOk && open {
        go := true;
        return;
      }
      if w.podsOk && cfg.enablePreScale {
        PathOne(cfg, w, s, t, View(now, AtPreScale), PreScale(w.level1, w.utilization));
        t := t + [PreScale(w.level1, w.utilization)];
        if !w.level1 && w.utilization <= cfg.fallbackThreshold {
          maxUtilization := cfg.fallbackThreshold;
        }
      }
    }

    /** The gates, up to the execution jitter. */
    method PassGates(cfg: Config, now: int, w: World) returns (go: bool, t: seq<Label>)
      modifies this`healthySince, this`maxUtilization
      ensures Path(cfg, w, old(View(now, AtMinimumWait)), t, View(now, if go then AtJitter else Idle))
    {
      ghost var s := View(now, AtMinimumWait);
      go, t := PassHealth(cfg, now, w);
      if !go {
        return;
      }
      ghost var s' := View(now, AtSafety);
      var safe, more := PassSafety(cfg, now, w);
      PathAll(cfg, w, s, t, s', more, View(now, if safe then AtJitter else Idle));
      return safe, t + more;
    }

    /** decreaseASGCapacity: `requested` is the capacity asked for, if it came to that. */
    method DecreaseCapacity(cfg: Config, now: int, w: World) returns (ok: bool, requested: Option<int>, t: seq<Label>)
      ensures Path(cfg, w, View(now, AtDescribe), t, View(now, if ok then Waiting(now) else Idle))
      ensures requested.Some? <==> CanLower(w.group)
      ensures requested.Some? ==> requested.value + 1 == w.group.desired && requested.value >= w.group.minSize
      ensures ok <==> requested.Some? && w.setOk
    {
      ghost var s := View(now, AtDescribe);
      t, ok := [], false;
      requested := LowerTarget(w.group);
      PathOne(cfg, w, s, t, s, DescribeAsg(requested.Some?));
      t := t + [DescribeAsg(requested.Some?)];
      if requested.None? {
        return;
      }
      PathOne(cfg, w, s, t, View(now, AtSet), SetAsg(w.setOk));
      t := t + [SetAsg(w.setOk)];
      ok := w.setOk;
    }

    /** Taint, cordon and drain, then a wait for the pods that does not decide anything. */
    method EmptyNode(cfg: Config, now: int, w: World) returns (ok: bool, t: seq<Label>)
      ensures Path(cfg, w, View(now, AtTaint), t, View(now, if ok then AtDescribe else Idle))
      ensures ok <==> w.taintOk && w.cordonOk && w.drainOk
    {
      ghost var s := View(now, AtTaint);
      t, ok := [], false;
      PathOne(cfg, w, s, t, s, Taint(w.taintOk));
      t := t + [Taint(w.taintOk)];
      if !w.taintOk {
        return;
      }
      PathOne(cfg, w, s, t, View(now, AtCordon), Cordon(w.cordonOk));
      t := t + [Cordon(w.cordonOk)];
      if !w.cordonOk {
        return;
      }
      PathOne(cfg, w, s, t, View(now, AtDrain), Drain(w.drainOk));
      t := t + [Drain(w.drainOk)];
      if !w.drainOk {
        return;
      }
      PathOne(cfg, w, s, t, View(now, AtReschedule), Reschedule(w.rescheduled));
      t := t + [Reschedule(w.rescheduled)];
      ok := true;
    }

    /** ScaleDownOnDemandNode: each step only after the one before succeeded. */
    method ScaleDown(cfg: Config, now: int, w: World) returns (ok: bool, t: seq<Label>)
      ensures Path(cfg, w, View(now, AtTaint), t, View(now, if ok then Waiting(now) else Idle))
      ensures ok <==> w.taintOk && w.cordonOk && w.drainOk && CanLower(w.group) && w.setOk
    {
      ok, t := EmptyNode(cfg, now, w);
      if !ok {
        return;
      }
      var lowered, requested, decrease := DecreaseCapacity(cfg, now, w);
      PathAll(cfg, w, View(now, AtTaint), t, View(now, AtDescribe), decrease,
              View(now, if lowered then Waiting(now) else Idle));
      return lowered, t + decrease;
    }

    /** The jitter and the marker, then the executor whatever came of the marker. */
    method MarkAndScaleDown(cfg: Config, now: int, w: World) returns (ok: bool, t: seq<Label>)
      modifies this`marker
      ensures Path(cfg, w, old(View(now, AtJitter)), t, View(now, if ok then Waiting(now) else Idle))
      ensures old(marker) ==> marker
    {
      ghost var s := View(now, AtJitter);
      t := [];
      PathOne(cfg, w, s, t, s, JitterOver);
      t := t + [JitterOver];
      PathOne(cfg, w, s, t, View(now, AtMark), Mark(w.markOk));
      t := t + [Mark(w.markOk)];
      if w.markOk {
        marker := true;
      }
      var done, steps := ScaleDown(cfg, now, w);
      PathAll(cfg, w, s, t, View(now, AtTaint), steps, View(now, if done then Waiting(now) else Idle));
      return done, t + steps;
    }

    /** Everything after the marker check. */
    method Check(cfg: Config, now: int, w: World) returns (initiated: bool, t: seq<Label>)
      modifies this
      ensures Path(cfg, w, old(View(now, AtMinimumWait)), t, View(now, if initiated then Waiting(now) else Idle))
      ensures startAnnotation == old(startAnnotation) && (old(marker) ==> marker)
    {
      ghost var s := View(now, AtMinimumWait);
      var go, gates := PassGates(cfg, now, w);
      if !go {
        return false, gates;
      }
      ghost var s' := View(now, AtJitter);
      var ok, steps := MarkAndScaleDown(cfg, now, w);
      PathAll(cfg, w, s, gates, s', steps, View(now, if ok then Waiting(now) else Idle));
      return ok, gates + steps;
    }

    /** One check: true exactly when Start then enters the termination wait. */
    method CheckAndScaleDown(cfg: Config, now: int, w: World) returns (initiated: bool, t: seq<Label>)
      modifies this
      ensures Walk(cfg, old(View(now, Idle)), t) == Some(View(now, if initiated then Waiting(now) else Idle))
      ensures WholeCheck(cfg, old(View(now, Idle)), w, t)
      ensures startAnnotation == old(startAnnotation) && (old(marker) ==> marker)
    {
      ghost var s := View(now, Idle);
      var first := [CheckMarker(w.markerRead)];
      assert [] + first == first;
      WalkOne(cfg, s, [], CheckMarker(w.markerRead));
      if w.markerRead && marker {
        return true, first;
      }
      var ok, steps := Check(cfg, now, w);
      WalkAll(cfg, s, first, steps);
      assert (first + steps)[1..] == steps;
      return ok, first + steps;
    }
  }
}
