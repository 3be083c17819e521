/**
 Spot capacity checks (pkg/spotguard/health_checker.go): the three separate checks, the
 comprehensive one that replaces them with a single API call, and the proof that on one
 error-free snapshot they return the same.
 */
module HealthCheck {
  import opened Filtering
  import opened KubeNodes
  import opened Wrappers

  /** An ASG instance; the API may leave any field out. */
  datatype Instance = Instance(id: Option<string>, lifecycleState: Option<string>, healthStatus: Option<string>)
  datatype Asg = Asg(desiredCapacity: int, instances: seq<Instance>)

  function StringValue(s: Option<string>): string { if s.None? then "" else s.value }

  predicate InService(i: Instance) {
    StringValue(i.lifecycleState) == "InService" && StringValue(i.healthStatus) == "Healthy"
  }

  ghost function InServiceSet(instances: seq<Instance>): set<int> {
    set k | 0 <= k < |instances| && InService(instances[k])
  }

  ghost predicate Healthy(asg: Asg) { |InServiceSet(asg.instances)| >= asg.desiredCapacity }

  /** The part of a provider ID behind its last slash. */
  function LastSegment(s: string): (r: string)
    ensures '/' !in r && |r| <= |s| && s[|s| - |r|..] == r
    ensures |r| < |s| ==> s[|s| - |r| - 1] == '/'
  {
    if s == "" || s[|s| - 1] == '/' then "" else LastSegment(s[..|s| - 1]) + [s[|s| - 1]]
  }

  function InstanceIdOf(providerId: string): string {
    var id := LastSegment(providerId);
    if |id| >= 2 && id[..2] == "i-" then id else ""
  }

  ghost predicate BelongsTo(n: Node, asg: Asg) {
    exists k :: 0 <= k < |asg.instances| && asg.instances[k].id == Some(InstanceIdOf(n.providerId))
                && InstanceIdOf(n.providerId) != ""
  }

  ghost predicate Usable(n: Node) { !n.unschedulable && IsReady(n) }

  /** The group has nodes in the cluster, and all of them can take work. */
  ghost predicate NodesReady(asg: Asg, nodes: seq<Node>) {
    && (exists i :: 0 <= i < |nodes| && BelongsTo(nodes[i], asg))
    && (forall i | 0 <= i < |nodes| && BelongsTo(nodes[i], asg) :: Usable(nodes[i]))
  }

  datatype Stability = Stability(isStable: bool, healthySince: Option<int>)

  /** The stability timer: reset, started, or compared with the required duration. */
  function Track(good: bool, now: int, duration: int, since: Option<int>): Stability {
    if !good then Stability(false, None)
    else if since.None? then Stability(false, Some(now))
    else Stability(now - since.value >= duration, since)
  }

  // ---- shared scanning

  predicate Hit(ids: set<string>, n: Node) {
    InstanceIdOf(n.providerId) != "" && InstanceIdOf(n.providerId) in ids
  }

  /** The nodes whose instance ID is in `ids`, in list order. */
  function Matching(ids: set<string>, nodes: seq<Node>): seq<Node> { Keep(n => Hit(ids, n), nodes) }

  /** Any lookup set that agrees with the group on non-empty IDs finds the group's nodes. */
  ghost predicate Agrees(ids: set<string>, asg: Asg) {
    forall id: string | id != "" :: id in ids <==> exists k :: 0 <= k < |asg.instances| && asg.instances[k].id == Some(id)
  }

  lemma ReadyFromMatching(asg: Asg, nodes: seq<Node>, ids: set<string>)
    requires Agrees(ids, asg)
    ensures NodesReady(asg, nodes) <==> Matching(ids, nodes) != [] && forall n | n in Matching(ids, nodes) :: Usable(n)
  {
    var m := Matching(ids, nodes);
    forall n ensures n in m <==> n in nodes && BelongsTo(n, asg) {
      KeepMembers(m => Hit(ids, m), nodes, n);
    }
    assert m != [] ==> m[0] in m;
    if NodesReady(asg, nodes) {
      var i :| 0 <= i < |nodes| && BelongsTo(nodes[i], asg);
      assert nodes[i] in m;
    }
  }

  method MatchNodes(ids: set<string>, nodes: seq<Node>) returns (matched: seq<Node>)
    ensures matched == Matching(ids, nodes)
  {
    matched := [];
    for i := 0 to |nodes|
      invariant matched == Matching(ids, nodes[..i])
    {
      assert nodes[..i + 1][..i] == nodes[..i];
      var id := InstanceIdOf(nodes[i].providerId);
      if id != "" && id in ids {
        matched := matched + [nodes[i]];
      }
    }
    assert nodes[..|nodes|] == nodes;
  }

  /** Stops at the first node that cannot take work. */
  method AllUsable(nodes: seq<Node>) returns (all: bool)
    ensures all <==> forall n | n in nodes :: Usable(n)
  {
    for i := 0 to |nodes|
      invariant forall k | 0 <= k < i :: Usable(nodes[k])
    {
      if nodes[i].unschedulable {
        assert nodes[i] in nodes && !Usable(nodes[i]);
        return false;
      }
      var ready := IsNodeReady(nodes[i]);
      if !ready {
        assert nodes[i] in nodes && !Usable(nodes[i]);
        return false;
      }
    }
    all := true;
  }

  // ---- the three separate checks

  method IsSpotAsgHealthy(asg: Asg) returns (healthy: bool)
    ensures healthy == Healthy(asg)
  {
    var inService := 0;
    for i := 0 to |asg.instances|
      invariant inService == |InServiceSet(asg.instances[..i])|
    {
      CountOne(asg.instances, i);
      if InService(asg.instances[i]) {
        inService := inService + 1;
      }
    }
    assert asg.instances[..|asg.instances|] == asg.instances;
    healthy := inService >= asg.desiredCapacity;
  }

  lemma CountOne(instances: seq<Instance>, i: nat)
    requires i < |instances|
    ensures |InServiceSet(instances[..i + 1])|
         == |InServiceSet(instances[..i])| + (if InService(instances[i]) then 1 else 0)
  {
    var a, b := InServiceSet(instances[..i]), InServiceSet(instances[..i + 1]);
    assert b == if InService(instances[i]) then a + {i} else a;
  }

  /** Instances without an ID are left out of the lookup set. */
  method AreSpotNodesReady(asg: Asg, nodes: seq<Node>) returns (ready: bool)
    ensures ready == NodesReady(asg, nodes)
  {
    var ids: set<string> := {};
    for i := 0 to |asg.instances|
      invariant forall s :: s in ids <==> exists k :: 0 <= k < i && asg.instances[k].id == Some(s)
    {
      if asg.instances[i].id.Some? {
        ids := ids + {asg.instances[i].id.value};
      }
    }
    ReadyFromMatching(asg, nodes, ids);
    var matched := MatchNodes(ids, nodes);
    if |matched| == 0 {
      return false;
    }
    ready := AllUsable(matched);
  }

  method IsSpotCapacityStable(asg: Asg, nodes: seq<Node>, now: int, duration: int, since: Option<int>)
    returns (stability: Stability)
    ensures stability == Track(Healthy(asg) && NodesReady(asg, nodes), now, duration, since)
  {
    var healthy := IsSpotAsgHealthy(asg);
    if !healthy {
      return Stability(false, None);
    }
    var ready := AreSpotNodesReady(asg, nodes);
    if !ready {
      return Stability(false, None);
    }
    if since.None? {
      return Stability(false, Some(now));
    }
    stability := Stability(now - since.value >= duration, since);
  }

  // ---- the comprehensive check

  datatype Status = Status(isHealthy: bool, nodesReady: bool, stability: Stability, instanceIds: seq<string>)

  /** Instances without an ID enter the lookup set as "", which no node can match. */
  method CheckSpotAsgComprehensive(asg: Asg, nodes: seq<Node>, now: int, duration: int, since: Option<int>)
    returns (status: Status)
    ensures status.isHealthy == Healthy(asg)
    ensures status.nodesReady == NodesReady(asg, nodes)
    ensures status.stability == Track(Healthy(asg) && NodesReady(asg, nodes), now, duration, since)
    ensures |status.instanceIds| == |asg.instances|
    ensures forall k | 0 <= k < |asg.instances| :: status.instanceIds[k] == StringValue(asg.instances[k].id)
  {
    var inService, instanceIds := 0, [];
    for i := 0 to |asg.instances|
      invariant inService == |InServiceSet(asg.instances[..i])|
      invariant |instanceIds| == i
      invariant forall k | 0 <= k < i :: instanceIds[k] == StringValue(asg.instances[k].id)
    {
      instanceIds := instanceIds + [StringValue(asg.instances[i].id)];
      CountOne(asg.instances, i);
      if InService(asg.instances[i]) {
        inService := inService + 1;
      }
    }
    assert asg.instances[..|asg.instances|] == asg.instances;
    var isHealthy := inService >= asg.desiredCapacity;

    var ids := set id | id in instanceIds;
    LookupAgrees(asg, instanceIds);
    ReadyFromMatching(asg, nodes, ids);
    var matched := MatchNodes(ids, nodes);
    if |matched| == 0 {
      return Status(isHealthy, false, Stability(false, None), instanceIds);
    }
    var allReady := AllUsable(matched);
    if !isHealthy || !allReady {
      return Status(isHealthy, allReady, Stability(false, None), instanceIds);
    }
    if since.None? {
      return Status(isHealthy, allReady, Stability(false, Some(now)), instanceIds);
    }
    status := Status(isHealthy, allReady, Stability(now - since.value >= duration, since), instanceIds);
  }

  lemma LookupAgrees(asg: Asg, ids: seq<string>)
    requires |ids| == |asg.instances| && forall k | 0 <= k < |ids| :: ids[k] == StringValue(asg.instances[k].id)
    ensures Agrees((set id | id in ids), asg)
  {
    forall id: string | id != ""
      ensures id in ids <==> exists k :: 0 <= k < |asg.instances| && asg.instances[k].id == Some(id)
    {
      if k :| 0 <= k < |asg.instances| && asg.instances[k].id == Some(id) {
        assert ids[k] == id;
      }
      if id in ids {
        var k :| 0 <= k < |ids| && ids[k] == id;
        assert asg.instances[k].id == Some(id);
      }
    }
  }

  /** One call or three: the same health, readiness, stability and timer. */
  method CompareChecks(asg: Asg, nodes: seq<Node>, now: int, duration: int, since: Option<int>)
    returns (status: Status, healthy: bool, ready: bool, stability: Stability)
    ensures status.isHealthy == healthy && status.nodesReady == ready && status.stability == stability
    ensures stability.isStable ==> healthy && ready && since.Some? && now - since.value >= duration
  {
    status := CheckSpotAsgComprehensive(asg, nodes, now, duration, since);
    healthy := IsSpotAsgHealthy(asg);
    ready := AreSpotNodesReady(asg, nodes);
    stability := IsSpotCapacityStable(asg, nodes, now, duration, since);
  }
}
