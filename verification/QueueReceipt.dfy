/**
 What one received queue message turns into
 (pkg/monitor/sqsevent/sqs-monitor.go, processInterruptionEvents).
 */
module QueueReceipt {
  import opened Wrappers
  import opened InterruptionEvents

  /** An event as a monitor builds it, before it becomes an object in the store. */
  datatype Draft = Draft(eventId: string, kind: Kind, node: string, startTime: int) {
    function ToEvent(receipt: Option<nat>): Event {
      Event(eventId, kind, node, startTime, receipt, false, false)
    }
  }

  datatype WrapperError = NoError | SkipError | OtherError
  datatype Built = Built(draft: Draft, isManaged: bool, fromSqsMonitor: bool)
  datatype Wrapper = Wrapper(err: WrapperError, event: Option<Built>)

  datatype Verdict = Drop | Fail | Send

  /** The arms of the switch, in order. */
  function Judge(checkIfManaged: bool, w: Wrapper): Verdict {
    if w.err.SkipError? then Drop
    else if w.err.OtherError? then Fail
    else if w.event.None? then Drop
    else if checkIfManaged && !w.event.value.isManaged then Drop
    else if w.event.value.fromSqsMonitor then Send
    else Drop
  }

  /** The drafts the receipt puts on the channel, in order. */
  function Sent(checkIfManaged: bool, ws: seq<Wrapper>): seq<Draft> {
    if ws == [] then []
    else
      var rest := Sent(checkIfManaged, ws[..|ws| - 1]);
      var w := ws[|ws| - 1];
      if Judge(checkIfManaged, w) == Send then rest + [w.event.value.draft] else rest
  }

  function Drops(checkIfManaged: bool, ws: seq<Wrapper>): nat {
    if ws == [] then 0
    else Drops(checkIfManaged, ws[..|ws| - 1]) + (if Judge(checkIfManaged, ws[|ws| - 1]) == Drop then 1 else 0)
  }

  ghost predicate AllDropped(checkIfManaged: bool, ws: seq<Wrapper>) {
    forall i | 0 <= i < |ws| :: Judge(checkIfManaged, ws[i]) == Drop
  }

  /** The drop counter reaches the list's length exactly when every wrapper was dropped. */
  lemma {:induction false} DropsFullIffAllDropped(checkIfManaged: bool, ws: seq<Wrapper>)
    ensures Drops(checkIfManaged, ws) <= |ws|
    ensures Drops(checkIfManaged, ws) == |ws| <==> AllDropped(checkIfManaged, ws)
  {
    if ws != [] {
      var front := ws[..|ws| - 1];
      DropsFullIffAllDropped(checkIfManaged, front);
      assert AllDropped(checkIfManaged, ws)
        <==> AllDropped(checkIfManaged, front) && Judge(checkIfManaged, ws[|ws| - 1]) == Drop by {
        assert forall i | 0 <= i < |front| :: ws[i] == front[i];
      }
    }
  }

  /**
   The message is deleted on receipt exactly when nothing in it was sent and nothing failed
   in a way worth a retry; a wrapper that was neither sent nor dropped is reported.
   */
  method ProcessInterruptionEvents(checkIfManaged: bool, ws: seq<Wrapper>, deleteSucceeds: bool)
    returns (sent: seq<Draft>, deletes: bool, failed: bool)
    ensures sent == Sent(checkIfManaged, ws)
    ensures deletes <==> AllDropped(checkIfManaged, ws)
    ensures failed <==> (exists i :: 0 <= i < |ws| && Judge(checkIfManaged, ws[i]) == Fail) || (deletes && !deleteSucceeds)
  {
    var dropCount, failCount := 0, 0;
    sent := [];
    for i := 0 to |ws|
      invariant dropCount == Drops(checkIfManaged, ws[..i])
      invariant sent == Sent(checkIfManaged, ws[..i])
      invariant failCount > 0 <==> exists k :: 0 <= k < i && Judge(checkIfManaged, ws[k]) == Fail
    {
      assert ws[..i + 1][..i] == ws[..i];
      match Judge(checkIfManaged, ws[i])
      case Drop => dropCount := dropCount + 1;
      case Fail => failCount := failCount + 1;
      case Send => sent := sent + [ws[i].event.value.draft];
    }
    assert ws[..|ws|] == ws;
    DropsFullIffAllDropped(checkIfManaged, ws);
    deletes := dropCount == |ws|;
    if deletes && !deleteSucceeds {
      failCount := failCount + 1;
    }
    failed := failCount != 0;
  }
}
