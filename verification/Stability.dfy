/**
 The stability timer over whole runs of checks.  `Monitor` (pkg/spotguard/monitor.go) stores
 every new value of the timer; the self-monitor (pkg/spotguard/self_monitor.go) returns
 before storing a reset, so its timer keeps running through bad checks.
 */
module StabilityTimer {
  import opened Wrappers
  import opened HealthCheck

  /** One check: it failed with an error, or it saw health and readiness at `now`. */
  datatype Observation = Failed | Seen(now: int, healthy: bool, ready: bool)

  predicate Good(o: Observation) { o.Seen? && o.healthy && o.ready }
  predicate Bad(o: Observation) { o.Seen? && !(o.healthy && o.ready) }

  /** IsSpotCapacityRestored followed by the update of the tracked event. */
  function MonitorStore(since: Option<int>, o: Observation, duration: int): Option<int> {
    if o.Failed? then since else Track(Good(o), o.now, duration, since).healthySince
  }

  /** The two early returns come before the assignment to healthySince. */
  function SelfStore(since: Option<int>, o: Observation, duration: int): Option<int> {
    if o.Failed? || !o.healthy || !o.ready then since else Track(true, o.now, duration, since).healthySince
  }

  predicate Stable(since: Option<int>, o: Observation, duration: int) {
    o.Seen? && Track(Good(o), o.now, duration, since).isStable
  }

  function MonitorTimer(os: seq<Observation>, duration: int): Option<int> {
    if os == [] then None
    else MonitorStore(MonitorTimer(os[..|os| - 1], duration), os[|os| - 1], duration)
  }

  function SelfTimer(os: seq<Observation>, duration: int): Option<int> {
    if os == [] then None
    else SelfStore(SelfTimer(os[..|os| - 1], duration), os[|os| - 1], duration)
  }

  predicate MonitorPasses(os: seq<Observation>, n: nat, duration: int)
    requires n < |os|
  {
    Stable(MonitorTimer(os[..n], duration), os[n], duration)
  }

  predicate SelfPasses(os: seq<Observation>, n: nat, duration: int)
    requires n < |os|
  {
    Stable(SelfTimer(os[..n], duration), os[n], duration)
  }

  /** Check k was good, no check since was bad, and k is the first such. */
  ghost predicate StreakStart(os: seq<Observation>, k: int) {
    && 0 <= k < |os| && Good(os[k])
    && (forall m | k <= m < |os| :: !Bad(os[m]))
    && (forall j | 0 <= j < k && Good(os[j]) :: exists b :: j < b < k && Bad(os[b]))
  }

  ghost predicate FirstGood(os: seq<Observation>, k: int) {
    0 <= k < |os| && Good(os[k]) && forall j | 0 <= j < k :: !Good(os[j])
  }

  lemma StreakExtends(os: seq<Observation>, n: nat, k: int)
    requires n < |os| && StreakStart(os[..n], k) && !Bad(os[n])
    ensures StreakStart(os[..n + 1], k)
  {
    var a, b := os[..n], os[..n + 1];
    assert forall m | 0 <= m < n :: a[m] == b[m];
    forall j | 0 <= j < k && Good(b[j]) ensures exists c :: j < c < k && Bad(b[c]) {
      var c :| j < c < k && Bad(a[c]);
      assert Bad(b[c]);
    }
  }

  /** Without a running streak, a good check has a bad one between it and any earlier good one. */
  lemma {:induction false} MonitorTimerIsStreak(os: seq<Observation>, duration: int, n: nat)
    requires n <= |os|
    ensures var t := MonitorTimer(os[..n], duration);
      && (t.Some? ==> exists k :: StreakStart(os[..n], k) && os[k].now == t.value)
      && (t.None? ==> forall j | 0 <= j < n && Good(os[j]) :: exists b :: j < b < n && Bad(os[b]))
    decreases n
  {
    if n > 0 {
      MonitorTimerIsStreak(os, duration, n - 1);
      assert os[..n][..n - 1] == os[..n - 1];
      var o, before := os[n - 1], MonitorTimer(os[..n - 1], duration);
      if before.Some? && !Bad(o) {
        var k :| StreakStart(os[..n - 1], k) && os[k].now == before.value;
        StreakExtends(os, n - 1, k);
      } else if Good(o) {
        assert StreakStart(os[..n], n - 1);
      }
    }
  }

  /**
   In every run of Monitor, an event passes the stability check at n only if its timer started
   at a good check at least the required duration ago and every check since then that finished
   without error was good as well; and that is also enough.
   */
  lemma MonitorPassesIff(os: seq<Observation>, n: nat, duration: int)
    requires n < |os|
    ensures MonitorPasses(os, n, duration) <==>
      && Good(os[n])
      && exists k :: StreakStart(os[..n], k) && os[n].now - os[k].now >= duration
  {
    MonitorTimerIsStreak(os, duration, n);
    if k :| StreakStart(os[..n], k) {
      var t := MonitorTimer(os[..n], duration);
      if t.Some? {
        var i :| StreakStart(os[..n], i) && os[i].now == t.value;
        StreakUnique(os[..n], i, k);
      }
    }
    forall i, k | StreakStart(os[..n], i) && StreakStart(os[..n], k) ensures i == k {
      StreakUnique(os[..n], i, k);
    }
  }

  lemma StreakUnique(os: seq<Observation>, i: int, k: int)
    requires StreakStart(os, i) && StreakStart(os, k)
    ensures i == k
  {
  }

  lemma {:induction false} SelfTimerIsFirst(os: seq<Observation>, duration: int, n: nat)
    requires n <= |os|
    ensures var t := SelfTimer(os[..n], duration);
      && (t.Some? ==> exists k :: FirstGood(os[..n], k) && os[k].now == t.value)
      && (t.None? ==> forall j | 0 <= j < n :: !Good(os[j]))
    decreases n
  {
    if n > 0 {
      SelfTimerIsFirst(os, duration, n - 1);
      assert os[..n][..n - 1] == os[..n - 1];
      var before := SelfTimer(os[..n - 1], duration);
      if before.Some? {
        var k :| FirstGood(os[..n - 1], k) && os[k].now == before.value;
        assert FirstGood(os[..n], k);
      } else if Good(os[n - 1]) {
        assert FirstGood(os[..n], n - 1);
      }
    }
  }

  /** The self-monitor only promises health now and at its first good check, long enough ago. */
  lemma SelfPassesIff(os: seq<Observation>, n: nat, duration: int)
    requires n < |os|
    ensures SelfPasses(os, n, duration) <==>
      && Good(os[n])
      && exists k :: FirstGood(os[..n], k) && os[n].now - os[k].now >= duration
  {
    SelfTimerIsFirst(os, duration, n);
  }

  /** Later checks read later clocks. */
  ghost predicate Clocked(os: seq<Observation>) {
    forall i, j | 0 <= i < j < |os| && os[i].Seen? && os[j].Seen? :: os[i].now <= os[j].now
  }

  ghost predicate StrictlyClocked(os: seq<Observation>) {
    forall i, j | 0 <= i < j < |os| && os[i].Seen? && os[j].Seen? :: os[i].now < os[j].now
  }

  lemma {:induction false} LastBad(os: seq<Observation>, k: int, n: nat) returns (b: int)
    requires 0 <= k < n <= |os| && exists m :: k < m < n && Bad(os[m])
    ensures k < b < n && Bad(os[b]) && forall m | b < m < n :: !Bad(os[m])
    decreases n
  {
    if Bad(os[n - 1]) {
      b := n - 1;
    } else {
      b := LastBad(os, k, n - 1);
    }
  }

  /** The first good check after the last bad one starts the streak. */
  lemma {:induction false} StreakAfterBad(os: seq<Observation>, n: nat, b: int, m: int) returns (s: int)
    requires n <= |os| && 0 <= b < m < n && Bad(os[b]) && Good(os[m]) && forall i | b < i < n :: !Bad(os[i])
    ensures b < s <= m && StreakStart(os[..n], s)
    decreases m
  {
    if i :| b < i < m && Good(os[i]) {
      s := StreakAfterBad(os, n, b, i);
    } else {
      s := m;
      forall j | 0 <= j < m && Good(os[..n][j]) ensures exists c :: j < c < m && Bad(os[..n][c]) {
        assert j < b && Bad(os[..n][b]);
      }
    }
  }

  /** A bad check since the first good one, after which no good check is old enough yet. */
  ghost predicate RecentOutage(os: seq<Observation>, n: nat, k: int, b: int, duration: int)
    requires n < |os| && os[n].Seen?
  {
    && k < b < n && 0 <= b && Bad(os[b])
    && forall m | b < m < n && Good(os[m]) :: os[n].now - os[m].now < duration
  }

  /**
   The self-monitor passes a check that Monitor would hold back exactly when its first good
   check is old enough but lies before an outage with no old enough good check after it; it
   never holds back a check that Monitor would pass.
   */
  lemma SelfBreaksPromiseIff(os: seq<Observation>, n: nat, k: int, duration: int)
    requires n < |os| && Clocked(os) && Good(os[n]) && FirstGood(os[..n], k)
    ensures MonitorPasses(os, n, duration) ==> SelfPasses(os, n, duration)
    ensures SelfPasses(os, n, duration) && !MonitorPasses(os, n, duration) <==>
      os[n].now - os[k].now >= duration && exists b :: RecentOutage(os, n, k, b, duration)
  {
    SelfPassesIff(os, n, duration);
    MonitorPassesIff(os, n, duration);
    assert forall m | 0 <= m < n :: os[..n][m] == os[m];
    if !MonitorPasses(os, n, duration) && os[n].now - os[k].now >= duration {
      assert (forall m | k < m < n :: !Bad(os[m])) ==> StreakStart(os[..n], k);
      var b := LastBad(os, k, n);
      forall m | b < m < n && Good(os[m]) ensures os[n].now - os[m].now < duration {
        var s := StreakAfterBad(os, n, b, m);
      }
      assert RecentOutage(os, n, k, b, duration);
    }
  }

  /**
   With a clock that moves between checks, the self-monitor agrees with Monitor for every
   required duration exactly when no check since its first good one was bad.
   */
  lemma SelfIsContinuousIff(os: seq<Observation>, n: nat, k: int)
    requires n < |os| && StrictlyClocked(os) && Good(os[n]) && FirstGood(os[..n], k)
    ensures (forall d :: SelfPasses(os, n, d) <==> MonitorPasses(os, n, d))
       <==> (forall m | k < m < n :: !Bad(os[m]))
  {
    assert forall m | 0 <= m < n :: os[..n][m] == os[m];
    if forall m | k < m < n :: !Bad(os[m]) {
      forall d ensures SelfPasses(os, n, d) <==> MonitorPasses(os, n, d) {
        SelfBreaksPromiseIff(os, n, k, d);
      }
    } else {
      var b :| k < b < n && Bad(os[b]);
      var d := os[n].now - os[k].now;
      assert RecentOutage(os, n, k, b, d);
      SelfBreaksPromiseIff(os, n, k, d);
    }
  }

  /** A run in which an outage a moment ago does not hold the self-monitor back. */
  lemma SelfIgnoresOutage(duration: int)
    requires duration > 0
    ensures var os := [Seen(0, true, true), Seen(duration, false, true), Seen(duration, true, true)];
      SelfPasses(os, 2, duration) && !MonitorPasses(os, 2, duration)
  {
    var os := [Seen(0, true, true), Seen(duration, false, true), Seen(duration, true, true)];
    assert FirstGood(os[..2], 0);
    SelfPassesIff(os, 2, duration);
    MonitorPassesIff(os, 2, duration);
    assert os[..2][1] == Seen(duration, false, true);
  }

  // ---- the tracked event as Monitor updates it

  class FallbackEvent {
    var spotHealthySince: Option<int>
    var scaleDownInitiated: bool

    constructor ()
      ensures spotHealthySince == None && !scaleDownInitiated
    {
      spotHealthySince, scaleDownInitiated := None, false;
    }

    /** shouldScaleDownEvent after the minimum wait has passed. */
    method ShouldScaleDown(o: Observation, duration: int, canDrain: bool) returns (go: bool)
      modifies this`spotHealthySince
      ensures spotHealthySince == MonitorStore(old(spotHealthySince), o, duration)
      ensures go <==> Stable(old(spotHealthySince), o, duration) && canDrain
    {
      if o.Failed? {
        return false;
      }
      var r := Track(Good(o), o.now, duration, spotHealthySince);
      if r.healthySince != spotHealthySince {
        spotHealthySince := r.healthySince;
      }
      if !r.isStable {
        return false;
      }
      go := canDrain;
    }

    /** The flag is set before the attempt and taken back when the attempt fails. */
    method ExecuteScaleDown(succeeds: bool) returns (ok: bool)
      modifies this`scaleDownInitiated
      ensures ok == succeeds && scaleDownInitiated == ok
    {
      scaleDownInitiated := true;
      ok := succeeds;
      if !ok {
        scaleDownInitiated := false;
      }
    }
  }

  datatype Check = Check(seen: Observation, canDrain: bool, executes: bool)

  function Observations(cs: seq<Check>): (os: seq<Observation>)
    ensures |os| == |cs|
    ensures forall k | 0 <= k < |cs| :: os[k] == cs[k].seen
  {
    if cs == [] then [] else Observations(cs[..|cs| - 1]) + [cs[|cs| - 1].seen]
  }

  /** Check n would scale the event down if it were still tracked. */
  ghost predicate Succeeds(cs: seq<Check>, n: nat, duration: int)
    requires n < |cs|
  {
    cs[n].canDrain && cs[n].executes && MonitorPasses(Observations(cs), n, duration)
  }

  ghost predicate FirstSuccess(cs: seq<Check>, n: nat, duration: int) {
    n < |cs| && Succeeds(cs, n, duration) && forall m | 0 <= m < n :: !Succeeds(cs, m, duration)
  }

  /** Check n is good and ends a streak of good checks of the required length. */
  ghost predicate OnStreak(os: seq<Observation>, n: nat, duration: int) {
    n < |os| && Good(os[n]) && exists k :: StreakStart(os[..n], k) && os[n].now - os[k].now >= duration
  }

  /**
   Every check of one tracked event, each of them free to scale it down: only the first that
   would succeed does, so the event is scaled down at most once, failed attempts being retried.
   */
  method WatchEvent(cs: seq<Check>, duration: int) returns (scaledDownAt: seq<nat>)
    ensures |scaledDownAt| <= 1
    ensures forall n | n in scaledDownAt :: FirstSuccess(cs, n, duration) && OnStreak(Observations(cs), n, duration)
    ensures scaledDownAt == [] ==> forall n | 0 <= n < |cs| :: !Succeeds(cs, n, duration)
  {
    var event := new FallbackEvent();
    ghost var os := Observations(cs);
    scaledDownAt := [];
    for i := 0 to |cs|
      invariant fresh(event)
      invariant |scaledDownAt| == if event.scaleDownInitiated then 1 else 0
      invariant forall n | n in scaledDownAt :: FirstSuccess(cs, n, duration) && OnStreak(os, n, duration)
      invariant !event.scaleDownInitiated ==> event.spotHealthySince == MonitorTimer(os[..i], duration)
      invariant !event.scaleDownInitiated ==> forall n | 0 <= n < i :: !Succeeds(cs, n, duration)
    {
      if event.scaleDownInitiated {
        continue;
      }
      assert os[..i + 1][..i] == os[..i];
      var go := event.ShouldScaleDown(cs[i].seen, duration, cs[i].canDrain);
      if go {
        var ok := event.ExecuteScaleDown(cs[i].executes);
        if ok {
          MonitorPassesIff(os, i, duration);
          scaledDownAt := scaledDownAt + [i];
        }
      }
    }
  }
}
