/**
 Lifecycle heartbeats: the accepted configurations (pkg/config/config.go), the sending loop
 (pkg/monitor/sqsevent/asg-lifecycle-event.go, SendHeartbeats) and what it does to the
 lifecycle hook's timeout.  Times are in seconds; ticker and timer are ideal.
 */
module Heartbeat {
  import opened Wrappers

  const UNSET: int := -1

  datatype Config = Config(sqsMode: bool, interval: int, until: int)

  predicate Enabled(c: Config) { c.interval != UNSET && c.until != UNSET }

  /** The settings the README allows. */
  predicate Acceptable(c: Config) {
    || (c.interval == UNSET && c.until == UNSET)
    || (c.sqsMode && 30 <= c.interval <= 3600
        && (c.until == UNSET || (60 <= c.until <= 172800 && c.interval <= c.until)))
  }

  /** The heartbeat block of ParseCliArgs, test by test. */
  method ParseHeartbeat(given: Config) returns (parsed: Option<Config>)
    ensures parsed.Some? <==> Acceptable(given)
    ensures parsed.Some? ==> Acceptable(parsed.value) && parsed.value.sqsMode == given.sqsMode
    ensures parsed.Some? ==>
      && parsed.value.interval == given.interval
      && (given.until != UNSET || given.interval == UNSET ==> parsed.value == given)
      && (given.interval != UNSET ==> Enabled(parsed.value) && 30 <= given.interval <= parsed.value.until <= 172800)
      && (given.interval != UNSET && given.until == UNSET ==> parsed.value.until == 172800)
  {
    var c := given;
    if !c.sqsMode && (c.interval != UNSET || c.until != UNSET) {
      return None;
    }
    if c.interval != UNSET && (c.interval < 30 || c.interval > 3600) {
      return None;
    }
    if c.until != UNSET && (c.until < 60 || c.until > 172800) {
      return None;
    }
    if c.interval == UNSET && c.until != UNSET {
      return None;
    }
    if c.interval != UNSET && c.until == UNSET {
      c := c.(until := 172800);
    }
    if c.interval != UNSET && c.until != UNSET && c.interval > c.until {
      return None;
    }
    return Some(c);
  }

  datatype Reply = Accepted | TransientError | ValidationError
  datatype Ending = Stopped(at: int) | InvalidTarget(at: int) | Deadline(at: int)

  /** What was recorded is what the ASG answered, and the loop ended for the reason it gives. */
  ghost predicate Justified(interval: int, until: int, stop: Option<nat>, replies: nat -> Reply,
                            accepted: seq<bool>, end: Ending) {
    && (forall i | 0 <= i < |accepted| :: accepted[i] == replies(i).Accepted?)
    && (forall i | 0 <= i < |accepted| && replies(i).ValidationError? :: end.InvalidTarget? && i == |accepted| - 1)
    && (end.Deadline? ==> end.at == until <= |accepted| * interval + interval)
    && (end.Stopped? ==> stop == Some(end.at) && end.at <= |accepted| * interval + interval)
    && (end.InvalidTarget? ==>
          accepted != [] && replies(|accepted| - 1).ValidationError? && end.at == |accepted| * interval)
  }

  /**
   The select loop: whichever of stop, tick and deadline comes first, any of them on a tie.
   `replies` are what the ASG answers to the successive heartbeats; `accepted` records them.
   */
  method SendHeartbeats(interval: int, until: int, stop: Option<nat>, replies: nat -> Reply)
    returns (accepted: seq<bool>, end: Ending)
    requires interval > 0 && until >= 0
    ensures |accepted| * interval <= until && 0 <= end.at <= until
    ensures Justified(interval, until, stop, replies, accepted, end)
  {
    accepted := [];
    var last := 0;  // time of the last tick taken
    while true
      invariant last == |accepted| * interval && 0 <= last <= until
      invariant forall i | 0 <= i < |accepted| :: accepted[i] == replies(i).Accepted? && !replies(i).ValidationError?
      decreases until - last
    {
      var tick := last + interval;
      if {
        case stop.Some? && stop.value <= tick && stop.value <= until =>
          return accepted, Stopped(stop.value);
        case tick <= until && (stop.None? || tick <= stop.value) =>
          var reply := replies(|accepted|);
          accepted, last := accepted + [reply.Accepted?], tick;
          if reply.ValidationError? {
            return accepted, InvalidTarget(tick);
          }
        case until <= tick && (stop.None? || until <= stop.value) =>
          return accepted, Deadline(until);
      }
    }
  }

  lemma MultiplyOrder(a: int, b: int, n: int)
    requires a <= b && n >= 0
    ensures a * n <= b * n
  {
  }

  lemma QuotientBounds(n: int, a: int, b: int)
    requires b > 0 && n * b <= a
    ensures n <= a / b && a / b * b <= a
  {
    var q := a / b;
    assert a == q * b + a % b;
    if n > q {
      MultiplyOrder(q + 1, n, b);
    }
  }

  /** No accepted configuration sends more than until / interval, hence 5760, heartbeats. */
  lemma AtMost5760(c: Config, beats: nat)
    requires Acceptable(c) && Enabled(c) && beats * c.interval <= c.until
    ensures beats <= c.until / c.interval <= 5760
  {
    var q := c.until / c.interval;
    QuotientBounds(beats, c.until, c.interval);
    MultiplyOrder(30, c.interval, q);
    assert 30 * q <= q * c.interval;
  }

  // ---- the hook on the other side

  /** When the hook expires: a heartbeat that arrives in time restarts its timeout. */
  function Expiry(interval: int, timeout: int, accepted: seq<bool>): int {
    if accepted == [] then timeout
    else
      var n := |accepted|;
      var before := Expiry(interval, timeout, accepted[..n - 1]);
      if accepted[n - 1] && n * interval < before then n * interval + timeout else before
  }

  /** The hook was still alive at every tick. */
  ghost predicate KeptAlive(interval: int, timeout: int, accepted: seq<bool>) {
    forall i | 0 <= i < |accepted| :: (i + 1) * interval < Expiry(interval, timeout, accepted[..i])
  }

  /** The number of the last accepted heartbeat, 0 for the start of the hook. */
  function LastAccepted(accepted: seq<bool>): (n: nat)
    ensures n <= |accepted|
  {
    if accepted == [] then 0
    else if accepted[|accepted| - 1] then |accepted| else LastAccepted(accepted[..|accepted| - 1])
  }

  /** Silence between accepted heartbeats never lasts as long as the timeout. */
  ghost predicate ShortSilences(interval: int, timeout: int, accepted: seq<bool>) {
    forall i | 0 <= i < |accepted| :: (i + 1) * interval - LastAccepted(accepted[..i]) * interval < timeout
  }

  lemma KeptAliveLast(interval: int, timeout: int, accepted: seq<bool>, n: nat)
    requires n + 1 == |accepted|
    ensures KeptAlive(interval, timeout, accepted) <==>
      KeptAlive(interval, timeout, accepted[..n]) && (n + 1) * interval < Expiry(interval, timeout, accepted[..n])
  {
    assert forall i | 0 <= i <= n :: accepted[..n][..i] == accepted[..i];
  }

  lemma ShortSilencesLast(interval: int, timeout: int, accepted: seq<bool>, n: nat)
    requires n + 1 == |accepted|
    ensures ShortSilences(interval, timeout, accepted) <==>
      && ShortSilences(interval, timeout, accepted[..n])
      && (n + 1) * interval - LastAccepted(accepted[..n]) * interval < timeout
  {
    assert forall i | 0 <= i <= n :: accepted[..n][..i] == accepted[..i];
  }

  /** The hook lives through the whole loop exactly when every silence is short enough. */
  lemma {:induction false} KeptAliveIff(interval: int, timeout: int, accepted: seq<bool>)
    ensures KeptAlive(interval, timeout, accepted) <==> ShortSilences(interval, timeout, accepted)
    ensures KeptAlive(interval, timeout, accepted) ==>
      Expiry(interval, timeout, accepted) == LastAccepted(accepted) * interval + timeout
    decreases |accepted|
  {
    if accepted != [] {
      var n := |accepted| - 1;
      KeptAliveIff(interval, timeout, accepted[..n]);
      KeptAliveLast(interval, timeout, accepted, n);
      ShortSilencesLast(interval, timeout, accepted, n);
    }
  }

  /**
   If every heartbeat is accepted the hook survives exactly when the interval is shorter than
   its timeout, and the deadline then leaves it alive until between until - interval + timeout
   and until + timeout.
   */
  lemma HookLifetime(interval: int, until: int, timeout: int, accepted: seq<bool>)
    requires interval > 0 && timeout > 0
    requires |accepted| * interval <= until <= |accepted| * interval + interval
    requires forall i | 0 <= i < |accepted| :: accepted[i]
    ensures KeptAlive(interval, timeout, accepted) <==> accepted == [] || interval < timeout
    ensures interval < timeout ==>
      until - interval + timeout <= Expiry(interval, timeout, accepted) <= until + timeout
  {
    KeptAliveIff(interval, timeout, accepted);
    AllAccepted(interval, timeout, accepted);
  }

  /** What a whole heartbeat does to the hook it keeps alive. */
  ghost predicate Lifetime(interval: int, until: int, timeout: int, accepted: seq<bool>, end: Ending) {
    && (KeptAlive(interval, timeout, accepted) <==> ShortSilences(interval, timeout, accepted))
    && ((forall i | 0 <= i < |accepted| :: accepted[i]) ==>
          && (KeptAlive(interval, timeout, accepted) <==> accepted == [] || interval < timeout)
          && (end.Deadline? && interval < timeout ==>
                until - interval + timeout <= Expiry(interval, timeout, accepted) <= until + timeout))
  }

  /** Nobody stops the heartbeat and every beat is accepted. */
  ghost predicate Undisturbed(stop: Option<nat>, replies: nat -> Reply) {
    stop.None? && forall i: nat :: replies(i).Accepted?
  }

  /**
   From the settings given to the end of one heartbeat: only settings the README allows get
   this far, the beats number at most until / interval and never more than 5760, the heartbeat
   is over by `until`, what it recorded and why it ended follow from the stop and the replies, and
   the hook lives as long as the timing of the accepted beats says; undisturbed, it beats until
   the deadline and the hook outlives it.
   */
  method Heartbeats(given: Config, stop: Option<nat>, replies: nat -> Reply, timeout: int)
    returns (parsed: Option<Config>, accepted: seq<bool>, end: Option<Ending>)
    requires timeout > 0
    ensures parsed.Some? <==> Acceptable(given)
    ensures end.Some? <==> parsed.Some? && given.interval != UNSET
    ensures end.None? ==> accepted == []
    ensures end.Some? ==>
      var c := parsed.value;
      && c.interval == given.interval && c.until == (if given.until == UNSET then 172800 else given.until)
      && |accepted| <= c.until / c.interval <= 5760 && 0 <= end.value.at <= c.until
      && Justified(c.interval, c.until, stop, replies, accepted, end.value)
      && Lifetime(c.interval, c.until, timeout, accepted, end.value)
      && (Undisturbed(stop, replies) ==>
            && end.value == Deadline(c.until)
            && (c.interval < timeout ==>
                  && KeptAlive(c.interval, timeout, accepted)
                  && c.until - c.interval + timeout <= Expiry(c.interval, timeout, accepted) <= c.until + timeout))
  {
    accepted, end := [], None;
    parsed := ParseHeartbeat(given);
    if parsed.None? || !Enabled(parsed.value) {
      return;
    }
    var c := parsed.value;
    var how;
    accepted, how := SendHeartbeats(c.interval, c.until, stop, replies);
    end := Some(how);
    AtMost5760(c, |accepted|);
    KeptAliveIff(c.interval, timeout, accepted);
    if forall i | 0 <= i < |accepted| :: accepted[i] {
      AllAccepted(c.interval, timeout, accepted);
      if how.Deadline? {
        HookLifetime(c.interval, c.until, timeout, accepted);
      }
    }
  }

  lemma NextTick(i: int, interval: int)
    ensures (i + 1) * interval - i * interval == interval
  {
  }

  lemma {:induction false} AllAccepted(interval: int, timeout: int, accepted: seq<bool>)
    requires forall i | 0 <= i < |accepted| :: accepted[i]
    ensures LastAccepted(accepted) == |accepted|
    ensures ShortSilences(interval, timeout, accepted) <==> accepted == [] || interval < timeout
  {
    forall i | 0 <= i < |accepted|
      ensures (i + 1) * interval - LastAccepted(accepted[..i]) * interval == interval
    {
      assert LastAccepted(accepted[..i]) == i;
      NextTick(i, interval);
    }
    if accepted != [] && ShortSilences(interval, timeout, accepted) {
      assert (0 + 1) * interval - LastAccepted(accepted[..0]) * interval < timeout;
    }
  }
}
