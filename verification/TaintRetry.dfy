/**
 Adding and removing node taints under optimistic concurrency (pkg/node/node.go, addTaint,
 addTaintToSpec, removeTaint, RemoveNTHTaints).  Other writers may replace the taints at any
 moment; the API server rejects an update whose version is not the current one.
 Times are in milliseconds.
 */
module TaintRetry {
  import opened Filtering

  const MAX_RETRY_DEADLINE: int := 5000
  const CONFLICT_RETRY_INTERVAL: int := 750

  datatype Effect = NoSchedule | PreferNoSchedule | NoExecute
  datatype Taint = Taint(key: string, value: string, effect: Effect)

  /** A node object as a client holds it. */
  datatype Copy = Copy(version: nat, taints: seq<Taint>)

  predicate HasKey(ts: seq<Taint>, key: string) { exists i :: 0 <= i < |ts| && ts[i].key == key }

  /** The taints without one key, the rest in order. */
  function Without(ts: seq<Taint>, key: string): seq<Taint> { Keep((t: Taint) => t.key != key, ts) }

  /** Removing undoes adding: the new key is there once, and nothing else moved. */
  lemma RemoveUndoesAdd(ts: seq<Taint>, t: Taint)
    requires !HasKey(ts, t.key)
    ensures Without(ts + [t], t.key) == ts
    ensures HasKey(ts + [t], t.key) && !HasKey(Without(ts + [t], t.key), t.key)
  {
    var p := (x: Taint) => x.key != t.key;
    KeepAll(p, ts);
    assert (ts + [t])[..|ts|] == ts && (ts + [t])[|ts|] == t;
  }

  lemma WithoutLacksKey(ts: seq<Taint>, key: string)
    ensures !HasKey(Without(ts, key), key)
    ensures |Without(ts, key)| <= |ts|
    ensures |Without(ts, key)| == |ts| <==> !HasKey(ts, key)
  {
    var p := (t: Taint) => t.key != key;
    KeepLength(p, ts);
    if i :| 0 <= i < |Without(ts, key)| && Without(ts, key)[i].key == key {
      KeepMembers(p, ts, Without(ts, key)[i]);
    }
  }

  /** A taint under another key survives, in its place. */
  lemma WithoutKeepsOthers(before: seq<Taint>, t: Taint, after: seq<Taint>, key: string)
    requires t.key != key
    ensures Without(before + [t] + after, key) == Without(before, key) + [t] + Without(after, key)
  {
    var p := (x: Taint) => x.key != key;
    KeepConcat(p, before + [t], after);
    KeepConcat(p, before, [t]);
    KeepAll(p, [t]);
  }

  datatype Reply = Committed | Conflict | Rejected

  /** One node on the API server, with the history of its taints: version v had `log[v]`. */
  class NodeApi {
    var version: nat
    var taints: seq<Taint>
    var clock: int
    ghost var log: seq<seq<Taint>>
    ghost var ours: seq<nat>  // the versions this client wrote

    ghost predicate Valid()
      reads this
    {
      |log| == version + 1 && log[version] == taints
    }

    ghost predicate Genuine(c: Copy)
      reads this
    {
      c.version < |log| && log[c.version] == c.taints
    }

    /** Other clients write whatever they like, and time passes. */
    method Interfere()
      requires Valid()
      modifies this`version, this`taints, this`clock, this`log
      ensures Valid() && old(log) <= log && clock >= old(clock)
    {
      var writes: nat, pause: nat := *, *;
      clock := clock + pause;
      while writes > 0
        invariant Valid() && old(log) <= log && clock >= old(clock)
      {
        taints := *;
        version := version + 1;
        log := log + [taints];
        writes := writes - 1;
      }
    }

    method Get() returns (ok: bool, copy: Copy)
      requires Valid()
      modifies this`version, this`taints, this`clock, this`log
      ensures Valid() && old(log) <= log && clock >= old(clock)
      ensures copy.version >= old(version) && Genuine(copy)
    {
      Interfere();
      copy := Copy(version, taints);
      ok := *;
    }

    /** Takes effect only on the current version. */
    method Update(copy: Copy) returns (reply: Reply)
      requires Valid()
      modifies this
      ensures Valid() && old(log) <= log && clock >= old(clock)
      ensures reply.Committed? ==>
        && version == copy.version + 1 > old(version) && taints == copy.taints
        && ours == old(ours) + [version]
      ensures !reply.Committed? ==> ours == old(ours)
    {
      Interfere();
      var unavailable: bool := *;
      if unavailable {
        return Rejected;
      }
      if copy.version != version {
        return Conflict;
      }
      taints := copy.taints;
      version := version + 1;
      log := log + [taints];
      ours := ours + [version];
      reply := Committed;
    }
  }

  datatype Outcome = Updated | AlreadyDone | Failed

  /** The key was not there and the taint is now last, once, after all that was there. */
  ghost predicate Appends(before: seq<Taint>, after: seq<Taint>, t: Taint) {
    !HasKey(before, t.key) && after == before + [t]
  }

  method AddTaintToSpec(ts: seq<Taint>, t: Taint) returns (added: bool, ts': seq<Taint>)
    ensures if added then Appends(ts, ts', t) else HasKey(ts, t.key) && ts' == ts
  {
    for i := 0 to |ts|
      invariant forall k | 0 <= k < i :: ts[k].key != t.key
    {
      if ts[i].key == t.key {
        return false, ts;
      }
    }
    return true, ts + [t];
  }

  /** One update of a copy, and after a conflict before the deadline the pause before the next. */
  method TryUpdate(api: NodeApi, base: Copy, taints: seq<Taint>, deadline: int) returns (reply: Reply, again: bool)
    requires api.Valid() && api.Genuine(base)
    modifies api
    ensures api.Valid() && old(api.log) <= api.log && api.Genuine(base)
    ensures again ==> reply.Conflict? && old(api.clock) + CONFLICT_RETRY_INTERVAL <= api.clock < deadline + CONFLICT_RETRY_INTERVAL
    ensures reply.Conflict? && !again ==> api.clock >= deadline
    ensures reply.Committed? ==>
      && |old(api.log)| < |api.log| == base.version + 2 && api.log[base.version + 1] == taints
      && api.ours == old(api.ours) + [base.version + 1]
    ensures !reply.Committed? ==> api.ours == old(api.ours)
  {
    reply := api.Update(base.(taints := taints));
    again := reply.Conflict? && api.clock < deadline;
    if again {
      api.clock := api.clock + CONFLICT_RETRY_INTERVAL;
    }
  }

  /**
   An atomic add: on success the key was appended to exactly the taints that were current at
   that version, so no other writer's taint is lost; success without an update means that a
   read made during the call already showed the key; a failure writes nothing; and at most
   eight updates are tried.
   */
  method AddTaint(api: NodeApi, node: Copy, t: Taint) returns (outcome: Outcome, attempts: nat, ghost at: nat)
    requires api.Valid() && api.Genuine(node)
    modifies api
    ensures api.Valid() && old(api.log) <= api.log && attempts <= 8
    ensures outcome.Updated? ==>
      && old(api.version) < at < |api.log| && api.ours == old(api.ours) + [at]
      && Appends(api.log[at - 1], api.log[at], t)
    ensures !outcome.Updated? ==> api.ours == old(api.ours)
    ensures outcome.AlreadyDone? ==>
      old(api.version) <= at < |api.log| && HasKey(api.log[at], t.key)
  {
    var start := api.clock;
    var current, refresh := node, false;
    attempts, at := 0, 0;
    while true
      invariant api.Valid() && old(api.log) <= api.log && api.ours == old(api.ours)
      invariant api.Genuine(current) && attempts <= 7
      invariant api.clock >= start + CONFLICT_RETRY_INTERVAL * attempts
      decreases 8 - attempts, !refresh
    {
      if refresh {
        var ok;
        ok, current := api.Get();
        if !ok {
          return Failed, attempts, at;
        }
      }
      at := current.version;
      var added, taints := AddTaintToSpec(current.taints, t);
      if !added {
        if !refresh {
          refresh := true;
          continue;
        }
        return AlreadyDone, attempts, at;
      }
      var reply, again := TryUpdate(api, current, taints, start + MAX_RETRY_DEADLINE);
      attempts := attempts + 1;
      if again {
        refresh := true;
        continue;
      }
      if !reply.Committed? {
        return Failed, attempts, at;
      }
      return Updated, attempts, at + 1;
    }
  }

  method DropKey(ts: seq<Taint>, key: string) returns (ts': seq<Taint>)
    ensures ts' == Without(ts, key)
  {
    ts' := [];
    for i := 0 to |ts|
      invariant ts' == Without(ts[..i], key)
    {
      assert ts[..i + 1][..i] == ts[..i];
      if ts[i].key != key {
        ts' := ts' + [ts[i]];
      }
    }
    assert ts[..|ts|] == ts;
  }

  /** An atomic remove, with the same promises. */
  method RemoveTaint(api: NodeApi, node: Copy, key: string) returns (outcome: Outcome, attempts: nat, ghost at: nat)
    requires api.Valid() && api.Genuine(node)
    modifies api
    ensures api.Valid() && old(api.log) <= api.log && attempts <= 8
    ensures outcome.Updated? ==>
      && old(api.version) < at < |api.log| && api.ours == old(api.ours) + [at]
      && HasKey(api.log[at - 1], key) && api.log[at] == Without(api.log[at - 1], key)
    ensures !outcome.Updated? ==> api.ours == old(api.ours)
    ensures !outcome.Failed? ==> old(api.version) <= at < |api.log| && !HasKey(api.log[at], key)
  {
    var start := api.clock;
    var current, refresh := node, false;
    attempts, at := 0, 0;
    while true
      invariant api.Valid() && old(api.log) <= api.log && api.ours == old(api.ours)
      invariant api.Genuine(current) && attempts <= 7
      invariant api.clock >= start + CONFLICT_RETRY_INTERVAL * attempts
      decreases 8 - attempts, !refresh
    {
      if refresh {
        var ok;
        ok, current := api.Get();
        if !ok {
          return Failed, attempts, at;
        }
      }
      at := current.version;
      WithoutLacksKey(current.taints, key);
      var taints := DropKey(current.taints, key);
      if |taints| == |current.taints| {
        if !refresh {
          refresh := true;
          continue;
        }
        return AlreadyDone, attempts, at;
      }
      var reply, again := TryUpdate(api, current, taints, start + MAX_RETRY_DEADLINE);
      attempts := attempts + 1;
      if again {
        refresh := true;
        continue;
      }
      if !reply.Committed? {
        return Failed, attempts, at;
      }
      return Updated, attempts, at + 1;
    }
  }

  const NTH_TAINTS: seq<string> := [
    "aws-node-termination-handler/spot-itn",
    "aws-node-termination-handler/scheduled-maintenance",
    "aws-node-termination-handler/asg-lifecycle-termination",
    "aws-node-termination-handler/rebalance-recommendation"]

  /** Version v differs from the one before by the removal of one of the handler's own keys. */
  ghost predicate RemovesNthTaint(log: seq<seq<Taint>>, v: nat) {
    exists key :: key in NTH_TAINTS && 0 < v < |log| && log[v] == Without(log[v - 1], key)
  }

  /** Every removal works from the same first copy; each key is gone at some version since. */
  method RemoveNthTaints(api: NodeApi, node: Copy) returns (ok: bool)
    requires api.Valid() && api.Genuine(node)
    modifies api
    ensures api.Valid() && old(api.log) <= api.log && old(api.ours) <= api.ours
    ensures forall i | |old(api.ours)| <= i < |api.ours| :: RemovesNthTaint(api.log, api.ours[i])
    ensures ok ==> forall key | key in NTH_TAINTS ::
      exists v :: old(api.version) <= v < |api.log| && !HasKey(api.log[v], key)
  {
    for k := 0 to |NTH_TAINTS|
      invariant api.Valid() && old(api.log) <= api.log && old(api.ours) <= api.ours
      invariant forall i | |old(api.ours)| <= i < |api.ours| :: RemovesNthTaint(api.log, api.ours[i])
      invariant forall h | 0 <= h < k ::
        exists v :: old(api.version) <= v < |api.log| && !HasKey(api.log[v], NTH_TAINTS[h])
    {
      ghost var log, ours := api.log, api.ours;
      var outcome, attempts, at := RemoveTaint(api, node, NTH_TAINTS[k]);
      forall i | |old(api.ours)| <= i < |api.ours| ensures RemovesNthTaint(api.log, api.ours[i]) {
        if i < |ours| {
          assert RemovesNthTaint(log, ours[i]);
          var key :| key in NTH_TAINTS && 0 < ours[i] < |log| && log[ours[i]] == Without(log[ours[i] - 1], key);
          assert api.log[ours[i]] == log[ours[i]] && api.log[ours[i] - 1] == log[ours[i] - 1];
        } else {
          assert NTH_TAINTS[k] in NTH_TAINTS;
        }
      }
      if outcome.Failed? {
        return false;
      }
    }
    ok := true;
  }
}
