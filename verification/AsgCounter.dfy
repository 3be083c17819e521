/**
 The on-demand Auto Scaling Group's desired capacity, lowered and raised by many pods through
 an unprotected describe-then-set
 (pkg/spotguard/scaledown_executor.go, decreaseASGCapacity; pkg/spotguard/spotguard.go, scaleUpASG).
 */
module AsgCounter {
  import opened Wrappers

  datatype Group = Group(minSize: int, maxSize: int, initial: int)

  datatype Direction = Down | Up

  function Delta(d: Direction): int { if d.Down? then -1 else 1 }

  /** A pod that has read `seen` and is about to set `seen` plus or minus one. */
  datatype Intent = Intent(dir: Direction, seen: int)

  datatype Label =
    | Describe(pod: nat, dir: Direction)
    | SetDesired(pod: nat, intent: Intent)
    | GiveUp(pod: nat)  // the call failed or the pod died

  datatype State = State(desired: int, intents: map<nat, Intent>)

  /** The bound each caller tests against its own, possibly old, reading. */
  predicate Allowed(g: Group, dir: Direction, seen: int) {
    if dir.Down? then seen - 1 >= g.minSize else seen + 1 <= g.maxSize
  }

  predicate Enabled(s: State, l: Label) {
    match l
    case Describe(p, _) => p !in s.intents
    case SetDesired(p, i) => p in s.intents && s.intents[p] == i
    case GiveUp(p) => p in s.intents
  }

  function Apply(g: Group, s: State, l: Label): State
    requires Enabled(s, l)
  {
    match l
    case Describe(p, dir) =>
      if Allowed(g, dir, s.desired) then s.(intents := s.intents[p := Intent(dir, s.desired)]) else s
    case SetDesired(p, i) => State(i.seen + Delta(i.dir), s.intents - {p})
    case GiveUp(p) => s.(intents := s.intents - {p})
  }

  ghost function Execute(g: Group, ls: seq<Label>): Option<State> {
    if ls == [] then Some(State(g.initial, map[]))
    else
      var before := Execute(g, ls[..|ls| - 1]);
      var l := ls[|ls| - 1];
      if before.Some? && Enabled(before.value, l) then Some(Apply(g, before.value, l)) else None
  }

  ghost predicate Run(g: Group, ls: seq<Label>) { Execute(g, ls).Some? }

  ghost function After(g: Group, ls: seq<Label>): State
    requires Run(g, ls)
  {
    Execute(g, ls).value
  }

  predicate Sets(l: Label, dir: Direction) { l.SetDesired? && l.intent.dir == dir }

  /** Completed writes in one direction. */
  function Completed(ls: seq<Label>, dir: Direction): nat {
    if ls == [] then 0
    else Completed(ls[..|ls| - 1], dir) + (if Sets(ls[|ls| - 1], dir) then 1 else 0)
  }

  ghost predicate Within(g: Group, ls: seq<Label>, v: int) {
    && g.minSize <= v <= g.maxSize
    && g.initial - Completed(ls, Down) <= v <= g.initial + Completed(ls, Up)
  }

  /**
   Whatever the interleaving, lost updates included, the desired capacity stays inside the
   group's limits and moves no further than the completed writes allow.
   */
  lemma {:induction false} CapacityBounded(g: Group, ls: seq<Label>)
    requires g.minSize <= g.initial <= g.maxSize && Run(g, ls)
    ensures Within(g, ls, After(g, ls).desired)
    ensures forall p | p in After(g, ls).intents ::
      var i := After(g, ls).intents[p]; Within(g, ls, i.seen) && Allowed(g, i.dir, i.seen)
  {
    if ls != [] {
      CapacityBounded(g, ls[..|ls| - 1]);
    }
  }

  /** How far each write was off because another write came between its read and itself. */
  ghost function Drift(g: Group, ls: seq<Label>): int
    requires Run(g, ls)
  {
    if ls == [] then 0
    else
      var front, l := ls[..|ls| - 1], ls[|ls| - 1];
      Drift(g, front) + (if l.SetDesired? then l.intent.seen - After(g, front).desired else 0)
  }

  /** The books always balance once the drift is counted. */
  lemma {:induction false} CapacityConserved(g: Group, ls: seq<Label>)
    requires Run(g, ls)
    ensures After(g, ls).desired == g.initial - Completed(ls, Down) + Completed(ls, Up) + Drift(g, ls)
  {
    if ls != [] {
      CapacityConserved(g, ls[..|ls| - 1]);
    }
  }

  /** Write j and the read i it is based on, with no other write in between. */
  ghost predicate Undisturbed(ls: seq<Label>, i: nat, j: nat) {
    && i < j < |ls| && ls[j].SetDesired?
    && ls[i] == Describe(ls[j].pod, ls[j].intent.dir)
    && (forall k | i < k < j :: !ls[k].SetDesired? && ls[k].pod != ls[j].pod)
  }

  ghost predicate NoOverlap(ls: seq<Label>) {
    forall j | 0 <= j < |ls| && ls[j].SetDesired? :: exists i :: Undisturbed(ls, i, j)
  }

  lemma {:induction false} ReadStaysCurrent(g: Group, ls: seq<Label>, p: nat, dir: Direction, i: nat)
    requires Run(g, ls) && i < |ls| && ls[i] == Describe(p, dir)
    requires forall k | i < k < |ls| :: !ls[k].SetDesired? && ls[k].pod != p
    ensures p in After(g, ls).intents ==> After(g, ls).intents[p].seen == After(g, ls).desired
    decreases |ls|
  {
    var n := |ls| - 1;
    if i < n {
      ReadStaysCurrent(g, ls[..n], p, dir, i);
    }
  }

  lemma {:induction false} NoOverlapNoDrift(g: Group, ls: seq<Label>)
    requires Run(g, ls) && NoOverlap(ls)
    ensures Drift(g, ls) == 0
    decreases |ls|
  {
    if ls != [] {
      var n := |ls| - 1;
      var front := ls[..n];
      forall j | 0 <= j < |front| && front[j].SetDesired? ensures exists i :: Undisturbed(front, i, j) {
        assert front[j] == ls[j];
        var i :| Undisturbed(ls, i, j);
        assert Undisturbed(front, i, j);
      }
      NoOverlapNoDrift(g, front);
      if ls[n].SetDesired? {
        var i :| Undisturbed(ls, i, n);
        ReadStaysCurrent(g, front, ls[n].pod, ls[n].intent.dir, i);
      }
    }
  }

  /** When no read-write pair overlaps another, every completed write counts exactly once. */
  lemma ExactWithoutOverlap(g: Group, ls: seq<Label>)
    requires Run(g, ls) && NoOverlap(ls)
    ensures After(g, ls).desired == g.initial - Completed(ls, Down) + Completed(ls, Up)
  {
    CapacityConserved(g, ls);
    NoOverlapNoDrift(g, ls);
  }

  // ---- the family of runs that loses updates

  function Reads(n: nat): seq<Label> {
    if n == 0 then [] else Reads(n - 1) + [Describe(n - 1, Down)]
  }

  function Writes(v: int, m: nat): seq<Label> {
    if m == 0 then [] else Writes(v, m - 1) + [SetDesired(m - 1, Intent(Down, v))]
  }

  lemma {:induction false} ReadsRun(g: Group, n: nat)
    requires g.minSize < g.initial
    ensures Run(g, Reads(n))
    ensures After(g, Reads(n)).desired == g.initial && Completed(Reads(n), Down) == 0
    ensures forall p: nat :: p in After(g, Reads(n)).intents <==> p < n
    ensures forall p | p in After(g, Reads(n)).intents :: After(g, Reads(n)).intents[p] == Intent(Down, g.initial)
  {
    if n > 0 {
      ReadsRun(g, n - 1);
      assert Reads(n)[..|Reads(n)| - 1] == Reads(n - 1);
    }
  }

  /** However many pods read before the first of them writes, the group loses one instance. */
  lemma {:induction false} HerdLowersByOne(g: Group, n: nat, m: nat)
    requires g.minSize < g.initial && m <= n
    ensures var ls := Reads(n) + Writes(g.initial, m);
      && Run(g, ls) && Completed(ls, Down) == m
      && After(g, ls).desired == (if m == 0 then g.initial else g.initial - 1)
      && (forall p: nat :: p in After(g, ls).intents <==> m <= p < n)
      && (forall p | p in After(g, ls).intents :: After(g, ls).intents[p] == Intent(Down, g.initial))
  {
    var ls := Reads(n) + Writes(g.initial, m);
    if m == 0 {
      ReadsRun(g, n);
      assert ls == Reads(n);
    } else {
      HerdLowersByOne(g, n, m - 1);
      assert ls[..|ls| - 1] == Reads(n) + Writes(g.initial, m - 1);
    }
  }
}
