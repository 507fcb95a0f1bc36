/** The shared maps of internal/rest/async/kafkahandler.go in their own imperative form. Each method is
    what its goroutine does while it holds the lock. */
module KafkaHandlers {
  import opened Options
  import opened KafkaSend

  function After(calls: seq<Call>, broadcast: bool): seq<Call> { if broadcast then Awakened(calls) else calls }

  class KafkaHandler {
    var pendingMsgs: set<string>
    var successMsgs: map<string, string>
    var failedMsgs: map<string, string>

    ghost function View(calls: seq<Call>): State
      reads this
    {
      State(calls, pendingMsgs, successMsgs, failedMsgs)
    }

    constructor ()
      ensures View([]) == Initial()
    {
      pendingMsgs, successMsgs, failedMsgs := {}, map[], map[];
    }

    method SetMsgPending(msgID: string, ghost calls: seq<Call>)
      modifies this`pendingMsgs
      ensures Step(old(View(calls)), Dispatch(msgID, true)) == Some(View(calls + [Call(msgID, true, Pending, None)]))
    {
      pendingMsgs := pendingMsgs + {msgID};
    }

    // One message off the producer's channel of errors; `broadcast` tells whether sleeping calls are woken.
    method OnError(msgID: string, error: string, ghost calls: seq<Call>, ghost i: nat) returns (broadcast: bool)
      requires i < |calls| && calls[i].msgId == msgID && !calls[i].phase.Pending? && calls[i].reported.None?
      modifies this
      ensures Step(old(View(calls)), Report(i, Failed(error))) ==
                Some(View(After(Noted(calls, i, Failed(error)), broadcast)))
    {
      broadcast := msgID in pendingMsgs;
      if broadcast {
        pendingMsgs := pendingMsgs - {msgID};
        failedMsgs := failedMsgs[msgID := error];
      }
    }

    // One message off the producer's channel of successes.
    method OnSuccess(msgID: string, ack: string, ghost calls: seq<Call>, ghost i: nat) returns (broadcast: bool)
      requires i < |calls| && calls[i].msgId == msgID && !calls[i].phase.Pending? && calls[i].reported.None?
      modifies this
      ensures Step(old(View(calls)), Report(i, Delivered(ack))) ==
                Some(View(After(Noted(calls, i, Delivered(ack)), broadcast)))
    {
      broadcast := msgID in pendingMsgs;
      if broadcast {
        pendingMsgs := pendingMsgs - {msgID};
        successMsgs := successMsgs[msgID := ack];
      }
    }

    // One round of waitForSend's loop; None means that the call goes to sleep.
    method TryReceive(msgID: string, ghost calls: seq<Call>, ghost i: nat) returns (outcome: Option<Outcome>)
      requires i < |calls| && calls[i].msgId == msgID && calls[i].phase.Waiting?
      modifies this
      ensures var phase := if outcome.None? then Sleeping else Returned(outcome);
              Step(old(View(calls)), Check(i)) == Some(View(calls[i := calls[i].(phase := phase)]))
    {
      if msgID in failedMsgs {
        outcome := Some(Failed(failedMsgs[msgID]));
        failedMsgs := failedMsgs - {msgID};
      } else if msgID in successMsgs {
        outcome := Some(Delivered(successMsgs[msgID]));
        successMsgs := successMsgs - {msgID};
      } else {
        outcome := None;
      }
    }
  }
}
