/** Nodes as the Kubernetes API reports them, as far as Spot Guard looks. */
module KubeNodes {
  datatype Condition = Condition(isReadyType: bool, statusTrue: bool)

  datatype Node = Node(
    providerId: string, unschedulable: bool, conditions: seq<Condition>, cpu: nat, memory: nat)

  /** The first condition of type Ready decides; without one the node is not ready. */
  ghost predicate IsReady(n: Node) {
    exists i :: 0 <= i < |n.conditions| && n.conditions[i].isReadyType && n.conditions[i].statusTrue
                && forall k | 0 <= k < i :: !n.conditions[k].isReadyType
  }

  method IsNodeReady(n: Node) returns (ready: bool)
    ensures ready == IsReady(n)
  {
    for i := 0 to |n.conditions|
      invariant forall k | 0 <= k < i :: !n.conditions[k].isReadyType
    {
      if n.conditions[i].isReadyType {
        return n.conditions[i].statusTrue;
      }
    }
    ready := false;
  }
}

/**
 The cluster capacity gate (pkg/spotguard/safety_checker.go, hasClusterCapacityBuffer and
 GetClusterUtilization).  Quotients are exact reals; division by zero gives the infinities
 and the NaN of IEEE 754, because the gate's answer then depends on how they compare.
 */
module Utilization {
  import opened KubeNodes
  import opened RealOrder

  datatype Container = Container(cpu: nat, memory: nat)
  datatype Pod = Pod(running: bool, containers: seq<Container>)

  datatype Float = NaN | NegInf | Num(r: real) | PosInf

  function Percent(used: int, capacity: int): Float {
    if capacity != 0 then Num(100.0 * used as real / capacity as real)
    else if used > 0 then PosInf
    else if used < 0 then NegInf
    else NaN
  }

  /** `x > y`: false whenever a NaN is involved. */
  predicate Greater(x: Float, y: Float) {
    match (x, y)
    case (NaN, _) => false
    case (_, NaN) => false
    case (Num(a), Num(b)) => a > b
    case (PosInf, _) => !y.PosInf?
    case (_, NegInf) => !x.NegInf?
    case (_, _) => false
  }

  predicate Gate(usedCpu: int, usedMemory: int, cpuLeft: int, memoryLeft: int, limit: real) {
    var cpu, memory := Percent(usedCpu, cpuLeft), Percent(usedMemory, memoryLeft);
    !Greater(if Greater(memory, cpu) then memory else cpu, Num(limit))
  }

  /** The promise behind the gate, free of division. */
  predicate Fits(used: int, left: int, limit: real) { 100.0 * used as real <= limit * left as real }

  lemma PercentIsFit(used: int, left: int, limit: real)
    requires left > 0
    ensures !Greater(Percent(used, left), Num(limit)) <==> Fits(used, left, limit)
  {
    var q := 100.0 * used as real / left as real;
    assert q * left as real == 100.0 * used as real;
    ScaleOrder(q, limit, left as real);
  }

  lemma FitsGrows(used: int, left: int, limit: real, larger: real)
    requires left >= 0 && limit <= larger && Fits(used, left, limit)
    ensures Fits(used, left, larger)
  {
    if left > 0 {
      ScaleOrder(limit, larger, left as real);
    }
  }

  /** With capacity left the gate opens exactly when both resources fit. */
  lemma GateExact(usedCpu: int, usedMemory: int, cpuLeft: int, memoryLeft: int, limit: real)
    requires cpuLeft > 0 && memoryLeft > 0
    ensures Gate(usedCpu, usedMemory, cpuLeft, memoryLeft, limit)
       <==> Fits(usedCpu, cpuLeft, limit) && Fits(usedMemory, memoryLeft, limit)
  {
    PercentIsFit(usedCpu, cpuLeft, limit);
    PercentIsFit(usedMemory, memoryLeft, limit);
  }

  /** With some CPU and no negative memory left, what the gate lets through fits. */
  lemma GateFits(usedCpu: nat, usedMemory: nat, cpuLeft: int, memoryLeft: int, limit: real)
    requires cpuLeft > 0 && memoryLeft >= 0 && Gate(usedCpu, usedMemory, cpuLeft, memoryLeft, limit)
    ensures Fits(usedCpu, cpuLeft, limit) && Fits(usedMemory, memoryLeft, limit)
  {
    PercentIsFit(usedCpu, cpuLeft, limit);
    if memoryLeft > 0 {
      PercentIsFit(usedMemory, memoryLeft, limit);
    }
  }

  /** No load, however placed, gets through without fitting. */
  ghost predicate Sound(cpuLeft: int, memoryLeft: int, limit: real) {
    forall usedCpu: nat, usedMemory: nat | Gate(usedCpu, usedMemory, cpuLeft, memoryLeft, limit) ::
      Fits(usedCpu, cpuLeft, limit) && Fits(usedMemory, memoryLeft, limit)
  }

  lemma Overload(left: int, limit: real) returns (used: nat)
    requires left >= 0 && limit > 0.0
    ensures !Fits(used, left, limit)
  {
    used := (limit * left as real).Floor + 1;
  }

  /**
   The gate is sound exactly when some CPU and no negative memory would be left.  Otherwise a
   NaN or a negative quotient opens it: removing a node that is not ready, or the last one.
   */
  lemma GateSoundIff(cpuLeft: int, memoryLeft: int, limit: real)
    requires limit > 0.0
    ensures Sound(cpuLeft, memoryLeft, limit) <==> cpuLeft > 0 && memoryLeft >= 0
  {
    if cpuLeft > 0 && memoryLeft >= 0 {
      forall usedCpu: nat, usedMemory: nat | Gate(usedCpu, usedMemory, cpuLeft, memoryLeft, limit)
        ensures Fits(usedCpu, cpuLeft, limit) && Fits(usedMemory, memoryLeft, limit)
      {
        GateFits(usedCpu, usedMemory, cpuLeft, memoryLeft, limit);
      }
    } else if cpuLeft > 0 {
      assert Gate(0, 0, cpuLeft, memoryLeft, limit);
      assert limit * memoryLeft as real < 0.0;
    } else if cpuLeft == 0 && memoryLeft >= 0 {
      var used := Overload(memoryLeft, limit);
      assert Gate(0, used, cpuLeft, memoryLeft, limit);
    } else {
      assert Gate(0, 0, cpuLeft, memoryLeft, limit);
      assert limit * cpuLeft as real < 0.0 || limit * memoryLeft as real < 0.0;
    }
  }

  // ---- totals

  ghost function TotalCpu(nodes: seq<Node>): nat {
    if nodes == [] then 0
    else TotalCpu(nodes[..|nodes| - 1]) + (if IsReady(nodes[|nodes| - 1]) then nodes[|nodes| - 1].cpu else 0)
  }

  ghost function TotalMemory(nodes: seq<Node>): nat {
    if nodes == [] then 0
    else TotalMemory(nodes[..|nodes| - 1]) + (if IsReady(nodes[|nodes| - 1]) then nodes[|nodes| - 1].memory else 0)
  }

  function ContainerCpu(cs: seq<Container>): nat {
    if cs == [] then 0 else ContainerCpu(cs[..|cs| - 1]) + cs[|cs| - 1].cpu
  }

  function ContainerMemory(cs: seq<Container>): nat {
    if cs == [] then 0 else ContainerMemory(cs[..|cs| - 1]) + cs[|cs| - 1].memory
  }

  function UsedCpu(pods: seq<Pod>): nat {
    if pods == [] then 0
    else UsedCpu(pods[..|pods| - 1]) + (if pods[|pods| - 1].running then ContainerCpu(pods[|pods| - 1].containers) else 0)
  }

  function UsedMemory(pods: seq<Pod>): nat {
    if pods == [] then 0
    else UsedMemory(pods[..|pods| - 1]) + (if pods[|pods| - 1].running then ContainerMemory(pods[|pods| - 1].containers) else 0)
  }

  method SumCapacity(nodes: seq<Node>) returns (cpu: int, memory: int)
    ensures cpu == TotalCpu(nodes) && memory == TotalMemory(nodes)
  {
    cpu, memory := 0, 0;
    for i := 0 to |nodes|
      invariant cpu == TotalCpu(nodes[..i]) && memory == TotalMemory(nodes[..i])
    {
      assert nodes[..i + 1][..i] == nodes[..i];
      var ready := IsNodeReady(nodes[i]);
      if !ready {
        continue;
      }
      cpu, memory := cpu + nodes[i].cpu, memory + nodes[i].memory;
    }
    assert nodes[..|nodes|] == nodes;
  }

  method SumRequests(pods: seq<Pod>) returns (cpu: int, memory: int)
    ensures cpu == UsedCpu(pods) && memory == UsedMemory(pods)
  {
    cpu, memory := 0, 0;
    for i := 0 to |pods|
      invariant cpu == UsedCpu(pods[..i]) && memory == UsedMemory(pods[..i])
    {
      assert pods[..i + 1][..i] == pods[..i];
      if pods[i].running {
        var cs := pods[i].containers;
        for k := 0 to |cs|
          invariant cpu == UsedCpu(pods[..i]) + ContainerCpu(cs[..k])
          invariant memory == UsedMemory(pods[..i]) + ContainerMemory(cs[..k])
        {
          assert cs[..k + 1][..k] == cs[..k];
          cpu, memory := cpu + cs[k].cpu, memory + cs[k].memory;
        }
        assert cs[..|cs|] == cs;
      }
    }
    assert pods[..|pods|] == pods;
  }

  /** The removed node's capacity is taken off whether or not it was counted. */
  method HasClusterCapacityBuffer(nodes: seq<Node>, pods: seq<Pod>, removed: Node, limit: real) returns (ok: bool)
    ensures ok == GateOn(nodes, pods, removed, limit)
  {
    var totalCpu, totalMemory := SumCapacity(nodes);
    var usedCpu, usedMemory := SumRequests(pods);
    ok := Gate(usedCpu, usedMemory, totalCpu - removed.cpu, totalMemory - removed.memory, limit);
  }

  /** The plain utilisation that pre-scaling starts from. */
  ghost function ClusterUtilization(nodes: seq<Node>, pods: seq<Pod>): real {
    if TotalCpu(nodes) == 0 || TotalMemory(nodes) == 0 then 0.0
    else
      var cpu := 100.0 * UsedCpu(pods) as real / TotalCpu(nodes) as real;
      var memory := 100.0 * UsedMemory(pods) as real / TotalMemory(nodes) as real;
      if cpu > memory then cpu else memory
  }

  method GetClusterUtilization(nodes: seq<Node>, pods: seq<Pod>) returns (u: real)
    ensures u == ClusterUtilization(nodes, pods)
  {
    var totalCpu, totalMemory := SumCapacity(nodes);
    var usedCpu, usedMemory := SumRequests(pods);
    if totalCpu == 0 || totalMemory == 0 {
      return 0.0;
    }
    var cpu := 100.0 * usedCpu as real / totalCpu as real;
    var memory := 100.0 * usedMemory as real / totalMemory as real;
    u := if cpu > memory then cpu else memory;
  }

  lemma MoreRoomFits(used: nat, left: int, total: int, limit: real)
    requires 0 <= left <= total && 0 < total && limit >= 0.0 && Fits(used, left, limit)
    ensures 100.0 * used as real / total as real <= limit
  {
    assert limit * left as real <= limit * total as real;
    var q := 100.0 * used as real / total as real;
    assert q * total as real == 100.0 * used as real;
    ScaleOrder(q, limit, total as real);
  }

  /** What is left of the ready capacity once a node is gone. */
  ghost function CpuLeft(nodes: seq<Node>, removed: Node): int { TotalCpu(nodes) - removed.cpu }

  ghost function MemoryLeft(nodes: seq<Node>, removed: Node): int { TotalMemory(nodes) - removed.memory }

  ghost predicate GateOn(nodes: seq<Node>, pods: seq<Pod>, removed: Node, limit: real) {
    Gate(UsedCpu(pods), UsedMemory(pods), CpuLeft(nodes, removed), MemoryLeft(nodes, removed), limit)
  }

  /** The pods fit what the other nodes leave, within the limit. */
  ghost predicate RoomFor(nodes: seq<Node>, pods: seq<Pod>, removed: Node, limit: real) {
    Fits(UsedCpu(pods), CpuLeft(nodes, removed), limit) && Fits(UsedMemory(pods), MemoryLeft(nodes, removed), limit)
  }

  /**
   A removal the gate lets through leaves room for the pods and keeps the plain utilisation of
   the same snapshot within the same limit.
   */
  lemma GateBoundsUtilization(nodes: seq<Node>, pods: seq<Pod>, removed: Node, limit: real)
    requires CpuLeft(nodes, removed) > 0 && MemoryLeft(nodes, removed) >= 0 && GateOn(nodes, pods, removed, limit)
    ensures RoomFor(nodes, pods, removed, limit) && ClusterUtilization(nodes, pods) <= limit
  {
    GateFits(UsedCpu(pods), UsedMemory(pods), CpuLeft(nodes, removed), MemoryLeft(nodes, removed), limit);
    ScaleOrder(0.0, limit, CpuLeft(nodes, removed) as real);
    MoreRoomFits(UsedCpu(pods), CpuLeft(nodes, removed), TotalCpu(nodes), limit);
    if TotalMemory(nodes) > 0 {
      MoreRoomFits(UsedMemory(pods), MemoryLeft(nodes, removed), TotalMemory(nodes), limit);
    }
  }

  // ---- snapshots on which the gate is open and nothing fits

  /** A node larger than the whole ready capacity, so one that is not ready, opens the gate for any load. */
  lemma NegativeRoomOpensGate(nodes: seq<Node>, pods: seq<Pod>, removed: Node, limit: real)
    requires CpuLeft(nodes, removed) < 0 && MemoryLeft(nodes, removed) < 0 && limit > 0.0
    ensures GateOn(nodes, pods, removed, limit) && !RoomFor(nodes, pods, removed, limit)
  {
    var cpu, memory := CpuLeft(nodes, removed), MemoryLeft(nodes, removed);
    NotPositive(UsedCpu(pods), cpu);
    NotPositive(UsedMemory(pods), memory);
    assert limit * cpu as real < 0.0;
  }

  lemma NotPositive(used: nat, left: int)
    requires left < 0
    ensures 100.0 * used as real / left as real <= 0.0
  {
    var q := 100.0 * used as real / left as real;
    assert q * left as real == 100.0 * used as real;
    assert q > 0.0 ==> q * left as real < 0.0;
  }

  const READY: seq<Condition> := [Condition(true, true)]
  const SMALL := Node("small", false, READY, 1, 1)
  const LARGE := Node("large", false, [Condition(true, false)], 2, 2)
  const BUSY := Pod(true, [Container(100, 100)])

  /** One ready node of size one, a pod asking for a hundred, and an unready node to remove. */
  lemma UnreadyNodeRemoved(limit: real)
    requires limit > 0.0
    ensures GateOn([SMALL, LARGE], [BUSY], LARGE, limit) && !RoomFor([SMALL, LARGE], [BUSY], LARGE, limit)
    ensures UsedCpu([BUSY]) == 100 && TotalCpu([SMALL, LARGE]) == 1
  {
    assert IsReady(SMALL) by { assert SMALL.conditions[0].isReadyType; }
    assert [SMALL, LARGE][..1] == [SMALL] && [SMALL][..0] == [] && [BUSY][..0] == [];
    assert BUSY.containers[..0] == [];
    assert TotalCpu([SMALL]) == 1 && TotalMemory([SMALL]) == 1 && !IsReady(LARGE);
    assert TotalCpu([SMALL, LARGE]) == 1 && TotalMemory([SMALL, LARGE]) == 1;
    NegativeRoomOpensGate([SMALL, LARGE], [BUSY], LARGE, limit);
  }
}
