/** What the receipts of direct dispatch tell: each request's own outcome. */
module DirectOutcome {
  import opened Options
  import opened DirectModel
  import opened DirectDispatch

  ghost predicate SendEnded(actions: seq<Action>, i: nat, ok: bool) { EndSend(i, ok) in actions }

  // What has happened to request i by the time it is in that phase.
  ghost predicate Past(actions: seq<Action>, i: nat, phase: Phase) {
    match phase
    case Accepted(_) => !SendEnded(actions, i, true) && !SendEnded(actions, i, false)
    case Listed(_) => !SendEnded(actions, i, true) && !SendEnded(actions, i, false)
    case Sending(_) => !SendEnded(actions, i, true) && !SendEnded(actions, i, false)
    case Sent(_, ok) => SendEnded(actions, i, ok) && !SendEnded(actions, i, !ok)
    case Released(_, ok) => SendEnded(actions, i, ok) && !SendEnded(actions, i, !ok)
    case Replied(_) => SendEnded(actions, i, true)
    case Cancelled(_) => !SendEnded(actions, i, true)
    case Finished(sent) => sent <==> SendEnded(actions, i, true)
  }

  ghost predicate Pasts(actions: seq<Action>, st: State) {
    && (forall i :: 0 <= i < |st.requests| ==> Past(actions, i, st.requests[i].phase))
    && (forall i, ok :: |st.requests| <= i ==> !SendEnded(actions, i, ok))
    && (forall k :: 0 <= k < |st.receipts| ==>
         && st.receipts[k].i < |st.requests| && st.requests[st.receipts[k].i].phase.Answered()
         && (st.receipts[k].sent <==> SendEnded(actions, st.receipts[k].i, true)))
  }

  lemma EndedNext(actions: seq<Action>, a: Action, i: nat, ok: bool)
    ensures SendEnded(actions + [a], i, ok) <==> SendEnded(actions, i, ok) || a == EndSend(i, ok)
  {
  }

  lemma PastKept(actions: seq<Action>, a: Action, i: nat, phase: Phase)
    requires Past(actions, i, phase) && !(a.EndSend? && a.i == i)
    ensures Past(actions + [a], i, phase)
  {
    EndedNext(actions, a, i, true);
    EndedNext(actions, a, i, false);
  }

  lemma PastMoves(cfg: Config, actions: seq<Action>, st: State, a: Action)
    requires !a.Dispatch? && Step(cfg, st, a).Some? && a.i < |st.requests|
    requires Past(actions, a.i, st.requests[a.i].phase)
    ensures var st' := Step(cfg, st, a).value;
            && |st'.requests| == |st.requests| && Past(actions + [a], a.i, st'.requests[a.i].phase)
            && forall i :: 0 <= i < |st.requests| && i != a.i ==> st'.requests[i] == st.requests[i]
  {
    EndedNext(actions, a, a.i, true);
    EndedNext(actions, a, a.i, false);
  }

  // A step adds no receipt, or that of its own request.
  lemma ReceiptMoves(cfg: Config, actions: seq<Action>, st: State, a: Action)
    requires !a.Dispatch? && Step(cfg, st, a).Some? && a.i < |st.requests|
    requires Past(actions, a.i, st.requests[a.i].phase)
    ensures var st' := Step(cfg, st, a).value;
            && (st.requests[a.i].phase.Answered() ==> st'.requests[a.i].phase.Answered() && !a.EndSend?)
            && (st'.receipts == st.receipts
                || exists sent :: && st'.receipts == st.receipts + [Answer(a.i, sent)]
                                  && (sent <==> SendEnded(actions, a.i, true))
                                  && st'.requests[a.i].phase.Answered() && !a.EndSend?)
  {
  }

  lemma ReceiptsKept(actions: seq<Action>, a: Action, st: State, st': State, k: nat)
    requires Pasts(actions, st) && k < |st.receipts| && !a.Dispatch? && a.i < |st.requests| == |st'.requests|
    requires st.receipts <= st'.receipts
    requires st.requests[a.i].phase.Answered() ==> st'.requests[a.i].phase.Answered() && !a.EndSend?
    requires forall i :: 0 <= i < |st.requests| && i != a.i ==> st'.requests[i] == st.requests[i]
    ensures st'.requests[st'.receipts[k].i].phase.Answered()
    ensures st'.receipts[k].sent <==> SendEnded(actions + [a], st'.receipts[k].i, true)
  {
    EndedNext(actions, a, st.receipts[k].i, true);
  }

  lemma PastsStep(cfg: Config, actions: seq<Action>, st: State, a: Action)
    requires !a.Dispatch? && Pasts(actions, st) && Step(cfg, st, a).Some?
    ensures Pasts(actions + [a], Step(cfg, st, a).value)
  {
    var st' := Step(cfg, st, a).value;
    PastMoves(cfg, actions, st, a);
    ReceiptMoves(cfg, actions, st, a);
    forall i | 0 <= i < |st.requests| ensures Past(actions + [a], i, st'.requests[i].phase) {
      if i != a.i { PastKept(actions, a, i, st.requests[i].phase); }
    }
    forall i: nat, ok | |st.requests| <= i ensures !SendEnded(actions + [a], i, ok) { EndedNext(actions, a, i, ok); }
    forall k | 0 <= k < |st.receipts|
      ensures st'.requests[st'.receipts[k].i].phase.Answered()
      ensures st'.receipts[k].sent <==> SendEnded(actions + [a], st'.receipts[k].i, true)
    {
      ReceiptsKept(actions, a, st, st', k);
    }
    EndedNext(actions, a, a.i, true);
  }

  lemma PastsDispatch(cfg: Config, actions: seq<Action>, st: State, a: Action)
    requires a.Dispatch? && Pasts(actions, st)
    ensures Pasts(actions + [a], Step(cfg, st, a).value)
  {
    forall i: nat, ok ensures SendEnded(actions + [a], i, ok) <==> SendEnded(actions, i, ok) {
      EndedNext(actions, a, i, ok);
    }
    var st' := Step(cfg, st, a).value;
    forall i | 0 <= i < |st'.requests| ensures Past(actions + [a], i, st'.requests[i].phase) {
      if i < |st.requests| { PastKept(actions, a, i, st.requests[i].phase); }
    }
  }

  lemma {:induction false} PastsRun(cfg: Config, actions: seq<Action>)
    requires Run(cfg, actions).Some?
    ensures Pasts(actions, Run(cfg, actions).value)
  {
    if actions == [] {
    } else {
      var n := |actions| - 1;
      PastsRun(cfg, actions[..n]);
      assert actions == actions[..n] + [actions[n]];
      if actions[n].Dispatch? {
        PastsDispatch(cfg, actions[..n], Run(cfg, actions[..n]).value, actions[n]);
      } else {
        PastsStep(cfg, actions[..n], Run(cfg, actions[..n]).value, actions[n]);
      }
    }
  }

  // Under every interleaving, whatever IDs clients choose: a receipt tells of a transaction that was sent if and only
  // if the send of its own request succeeded.
  lemma EachItsOwnReceipt(cfg: Config, actions: seq<Action>, k: nat)
    requires Run(cfg, actions).Some? && k < |Run(cfg, actions).value.receipts|
    ensures var answer := Run(cfg, actions).value.receipts[k]; answer.sent <==> EndSend(answer.i, true) in actions
  {
    PastsRun(cfg, actions);
  }

  // A transaction is put at the end of the list under a new number; what cannot be processed is answered at once with
  // an error, and neither listed nor sent.
  lemma BeginsBy(cfg: Config, st: State, i: nat, st': State)
    requires i < |st.requests| && st.requests[i].phase.Accepted? && Step(cfg, st, Begin(i)) == Some(st')
    ensures st.requests[i].phase.kind.SendTransaction? ==>
              && st'.requests[i].phase == Listed(st.nextId) && st'.txs == st.txs + [st.nextId]
              && st'.nextId == st.nextId + 1 && st'.receipts == st.receipts
    ensures st.requests[i].phase.kind.Unknown? ==>
              && st'.requests[i].phase == Finished(false) && st'.txs == st.txs
              && st'.receipts == st.receipts + [Answer(i, false)]
  {
  }
}
