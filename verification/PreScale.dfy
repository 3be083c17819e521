module RealOrder {
  lemma ScaleOrder(a: real, b: real, t: real)
    requires t > 0.0
    ensures a <= b <==> a * t <= b * t
  {
    if a > b {
      assert (a - b) * t > 0.0;
    } else {
      assert (b - a) * t >= 0.0;
    }
  }
}

/**
 How many spot nodes to add before draining on-demand ones
 (pkg/spotguard/health_checker.go, CalculatePreScaleNodes), over exact reals.
 */
module PreScale {
  import opened RealOrder

  /** Go's conversion of a float to an int drops the fraction. */
  function TruncateToInt(x: real): int { if x >= 0.0 then x.Floor else -((-x).Floor) }

  /** Truncate, then add one if something was dropped. */
  function RoundUp(x: real): (n: int)
    ensures x <= n as real < x + 1.0
  {
    var n := TruncateToInt(x);
    if x > n as real then n + 1 else n
  }

  lemma RoundUpMonotone(x: real, y: real)
    requires x <= y
    ensures RoundUp(x) <= RoundUp(y)
  {
  }

  function Workload(nodes: nat, utilization: real): real { nodes as real * (utilization / 100.0) }

  /** The capacity that brings the workload down to the target. */
  function Required(nodes: nat, utilization: real, target: real): real
    requires target > 0.0
  {
    Workload(nodes, utilization) / (target / 100.0)
  }

  function WithBuffer(additional: int, bufferPercent: int): real {
    additional as real * (1.0 + bufferPercent as real / 100.0)
  }

  function Buffered(additional: int, bufferPercent: int): int {
    if bufferPercent > 0 && additional > 0 then RoundUp(WithBuffer(additional, bufferPercent)) else additional
  }

  function Shortfall(spot: nat, onDemand: nat, utilization: real, target: real): int
    requires target > 0.0
  {
    RoundUp(Required(spot + onDemand, utilization, target)) - spot
  }

  /** The number of spot nodes to add. */
  function Additional(spot: nat, onDemand: nat, utilization: real, target: real, bufferPercent: int): int
    requires target > 0.0
  {
    if utilization <= target then 0
    else
      var n := Buffered(Shortfall(spot, onDemand, utilization, target), bufferPercent);
      if n < 1 then 1 else n
  }

  datatype Calculation = Calculation(nodesNeeded: int, additionalSpotNodes: int, expectedUtilization: real)

  lemma BufferGrows(additional: int, bufferPercent: int)
    ensures Buffered(additional, bufferPercent) >= additional
  {
    if bufferPercent > 0 && additional > 0 {
      assert additional as real * (bufferPercent as real / 100.0) >= 0.0;
      assert additional as real * (1.0 + bufferPercent as real / 100.0)
          == additional as real + additional as real * (bufferPercent as real / 100.0);
    }
  }

  lemma EnoughNodesMeetTarget(workload: real, nodes: int, target: real)
    requires target > 0.0 && nodes > 0 && workload / (target / 100.0) <= nodes as real
    ensures workload / nodes as real * 100.0 <= target
  {
    var t := target / 100.0;
    assert workload / t * t == workload;
    assert workload / t * t <= nodes as real * t;
    var u := workload / nodes as real;
    assert u * nodes as real == workload;
    ScaleOrder(u, t, nodes as real);
  }

  /**
   The plan never shrinks the spot group, adds a node exactly when utilisation is above the
   target, and is expected to end at or below the target.
   */
  method CalculatePreScaleNodes(spot: nat, onDemand: nat, utilization: real, target: real, bufferPercent: int)
    returns (plan: Calculation)
    requires target > 0.0
    ensures plan.additionalSpotNodes == Additional(spot, onDemand, utilization, target, bufferPercent)
    ensures plan.nodesNeeded == spot + plan.additionalSpotNodes
    ensures plan.additionalSpotNodes >= 0 && (plan.additionalSpotNodes >= 1 <==> utilization > target)
    ensures plan.expectedUtilization <= target
    ensures utilization > target ==>
      plan.expectedUtilization == Workload(spot + onDemand, utilization) / plan.nodesNeeded as real * 100.0
  {
    if utilization <= target {
      return Calculation(spot, 0, utilization);
    }
    var workload := Workload(spot + onDemand, utilization);
    var required := workload / (target / 100.0);
    var needed := TruncateToInt(required);
    if required > needed as real {
      needed := needed + 1;
    }
    var additional := needed - spot;
    BufferGrows(additional, bufferPercent);
    if bufferPercent > 0 && additional > 0 {
      var buffered := WithBuffer(additional, bufferPercent);
      additional := TruncateToInt(buffered);
      if buffered > additional as real {
        additional := additional + 1;
      }
      needed := spot + additional;
    }
    if additional < 1 {
      additional := 1;
      needed := spot + 1;
    }
    EnoughNodesMeetTarget(workload, needed, target);
    plan := Calculation(needed, additional, workload / needed as real * 100.0);
  }

  lemma RequiredMonotone(nodes: nat, u: real, v: real, target: real)
    requires u <= v && target > 0.0
    ensures Required(nodes, u, target) <= Required(nodes, v, target)
  {
    var t, n := target / 100.0, nodes as real;
    assert n * (u / 100.0) <= n * (v / 100.0);
    DivideOrder(n * (u / 100.0), n * (v / 100.0), t);
  }

  lemma DivideOrder(a: real, b: real, t: real)
    requires a <= b && t > 0.0
    ensures a / t <= b / t
  {
    var x, y := a / t, b / t;
    assert x * t == a && y * t == b;
    ScaleOrder(x, y, t);
  }

  lemma WithBufferMonotone(a: int, b: int, bufferPercent: int)
    requires a <= b && bufferPercent >= 0
    ensures WithBuffer(a, bufferPercent) <= WithBuffer(b, bufferPercent)
  {
    ScaleOrder(a as real, b as real, 1.0 + bufferPercent as real / 100.0);
  }

  lemma BufferedMonotone(a: int, b: int, bufferPercent: int)
    requires a <= b
    ensures Buffered(a, bufferPercent) <= Buffered(b, bufferPercent)
  {
    BufferGrows(b, bufferPercent);
    if bufferPercent > 0 && a > 0 {
      WithBufferMonotone(a, b, bufferPercent);
      RoundUpMonotone(WithBuffer(a, bufferPercent), WithBuffer(b, bufferPercent));
    }
  }

  /** Higher utilisation never asks for fewer nodes. */
  lemma AdditionalMonotone(spot: nat, onDemand: nat, u: real, v: real, target: real, bufferPercent: int)
    requires u <= v && target > 0.0
    ensures Additional(spot, onDemand, u, target, bufferPercent) <= Additional(spot, onDemand, v, target, bufferPercent)
  {
    RequiredMonotone(spot + onDemand, u, v, target);
    RoundUpMonotone(Required(spot + onDemand, u, target), Required(spot + onDemand, v, target));
    BufferedMonotone(Shortfall(spot, onDemand, u, target), Shortfall(spot, onDemand, v, target), bufferPercent);
  }

  /** Without a buffer the plan is tight: one node fewer would miss the target. */
  lemma OneFewerMissesTarget(spot: nat, onDemand: nat, utilization: real, target: real, bufferPercent: int)
    requires target > 0.0 && utilization > target && bufferPercent <= 0
    requires Shortfall(spot, onDemand, utilization, target) > 0
    ensures var needed := spot + Additional(spot, onDemand, utilization, target, bufferPercent);
      100.0 * Workload(spot + onDemand, utilization) > target * (needed - 1) as real
  {
    var w, t := Workload(spot + onDemand, utilization), target / 100.0;
    var n := RoundUp(w / t);
    assert w / t * t == w;
    assert w / t > (n - 1) as real;
    assert w / t * t > (n - 1) as real * t;
  }
}
