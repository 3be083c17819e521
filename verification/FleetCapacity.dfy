/**
 Many self-monitors and one Auto Scaling Group: the monitors of `SelfMonitor` and the counter of
 `AsgCounter` run side by side, in any interleaving, and meet in the describe and set calls.
 */
module FleetCapacity {
  import opened Wrappers
  import Asg = AsgCounter
  import Node = SelfMonitor
  import Runs = SelfMonitorRuns

  /** A step of one node's monitor, with its effect on the group if it has one, or a scale-up. */
  datatype Label = NodeStep(node: nat, step: Node.Label, call: Option<Asg.Label>) | GroupStep(call: Option<Asg.Label>)

  /** The group is read by a describe that worked and lowered by a set that worked, and by nothing else. */
  predicate Meets(l: Label) {
    match l
    case NodeStep(p, step, call) =>
      && (step == Node.DescribeAsg(true) <==> call == Some(Asg.Describe(p, Asg.Down)))
      && (step == Node.SetAsg(true) <==> call.Some? && Asg.Sets(call.value, Asg.Down))
      && (call.Some? && call.value.SetDesired? ==> step == Node.SetAsg(true) && call.value.pod == p)
    case GroupStep(call) => call.Some? && !Asg.Sets(call.value, Asg.Down)
  }

  /** What node p's own monitor did. */
  function Own(fs: seq<Label>, p: nat): seq<Node.Label> {
    if fs == [] then []
    else
      var front, l := Own(fs[..|fs| - 1], p), fs[|fs| - 1];
      if l.NodeStep? && l.node == p then front + [l.step] else front
  }

  /** What happened to the group. */
  function Shared(fs: seq<Label>): seq<Asg.Label> {
    if fs == [] then []
    else
      var front, l := Shared(fs[..|fs| - 1]), fs[|fs| - 1];
      if l.call.Some? then front + [l.call.value] else front
  }

  /** Nodes 0 to n - 1, each running its own monitor against the one group. */
  ghost predicate FleetRun(cfgs: nat -> Node.Config, g: Asg.Group, n: nat, fs: seq<Label>) {
    && (forall l | l in fs :: Meets(l) && (l.NodeStep? ==> l.node < n))
    && (forall p: nat | p < n :: Node.Run(cfgs(p), Own(fs, p)))
    && Asg.Run(g, Shared(fs))
  }

  function Lowerings(fs: seq<Label>, n: nat): nat {
    if n == 0 then 0 else Lowerings(fs, n - 1) + Runs.Count(Own(fs, n - 1), Node.SetAsg(true))
  }

  /** One lowering per node, and one more for each excuse of that node. */
  function Allowance(fs: seq<Label>, n: nat): nat {
    if n == 0 then 0 else Allowance(fs, n - 1) + 1 + Runs.Excuses(Own(fs, n - 1))
  }

  predicate Lowers(l: Label, n: nat) { l.NodeStep? && l.node < n && l.step == Node.SetAsg(true) }

  lemma {:induction false} LoweringsLast(fs: seq<Label>, l: Label, n: nat)
    ensures Lowerings(fs + [l], n) == Lowerings(fs, n) + (if Lowers(l, n) then 1 else 0)
  {
    if n > 0 {
      LoweringsLast(fs, l, n - 1);
      assert (fs + [l])[..|fs|] == fs;
      if l.NodeStep? && l.node == n - 1 {
        Runs.CountLast(Own(fs, n - 1), l.step, Node.SetAsg(true));
      }
    }
  }

  lemma CompletedLast(gs: seq<Asg.Label>, a: Asg.Label)
    ensures Asg.Completed(gs + [a], Asg.Down) == Asg.Completed(gs, Asg.Down) + (if Asg.Sets(a, Asg.Down) then 1 else 0)
  {
    assert (gs + [a])[..|gs|] == gs;
  }

  /** Every completed lowering of the group is one node's. */
  lemma {:induction false} LoweringsAddUp(fs: seq<Label>, n: nat)
    requires forall l | l in fs :: Meets(l) && (l.NodeStep? ==> l.node < n)
    ensures Asg.Completed(Shared(fs), Asg.Down) == Lowerings(fs, n)
  {
    if fs == [] {
      NothingLowered(n);
    } else {
      var front, l := fs[..|fs| - 1], fs[|fs| - 1];
      LoweringsAddUp(front, n);
      LoweringsLast(front, l, n);
      assert front + [l] == fs && Meets(l);
      if l.call.Some? {
        CompletedLast(Shared(front), l.call.value);
      }
    }
  }

  lemma {:induction false} NothingLowered(n: nat)
    ensures Lowerings([], n) == 0
  {
    if n > 0 {
      NothingLowered(n - 1);
    }
  }

  lemma {:induction false} LoweringsAllowed(cfgs: nat -> Node.Config, fs: seq<Label>, n: nat)
    requires forall p: nat | p < n :: Node.Run(cfgs(p), Own(fs, p))
    ensures Lowerings(fs, n) <= Allowance(fs, n)
  {
    if n > 0 {
      LoweringsAllowed(cfgs, fs, n - 1);
      Runs.LoweringsBounded(cfgs(n - 1), Own(fs, n - 1));
    }
  }

  /**
   However n monitors, their restarts and the scale-ups interleave, lost updates included, the
   group never falls below its minimum, nor below where it began less one instance per node and
   one per marker a node cleared or failed to write or read.
   */
  lemma FleetKeepsCapacity(cfgs: nat -> Node.Config, g: Asg.Group, n: nat, fs: seq<Label>)
    requires g.minSize <= g.initial <= g.maxSize && FleetRun(cfgs, g, n, fs)
    ensures g.minSize <= Asg.After(g, Shared(fs)).desired <= g.maxSize
    ensures Asg.After(g, Shared(fs)).desired >= g.initial - Allowance(fs, n)
  {
    Asg.CapacityBounded(g, Shared(fs));
    LoweringsAddUp(fs, n);
    LoweringsAllowed(cfgs, fs, n);
  }
}
