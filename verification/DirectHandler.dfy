/** The shared fields of internal/rest/async/directhandler.go and internal/tx/txprocessor.go in their own
    imperative form. Each method is the body of one critical section. */
module DirectHandlers {
  import opened Options
  import opened DirectModel

  // The steps that take a transaction off the list: a failed send is settled, or a reply has been stored.
  predicate Unlists(st: State, a: Action, id: nat) {
    && !a.Dispatch? && a.i < |st.requests|
    && match st.requests[a.i].phase
       case Released(n, ok) => a.Settle? && !ok && n == id
       case Replied(n) => a.Close? && n == id
       case _ => false
  }

  // The steps that answer a request: it cannot be processed, it was sent, or its failed send was settled.
  predicate Answers(st: State, a: Action, sent: bool) {
    && !a.Dispatch? && a.i < |st.requests|
    && match st.requests[a.i].phase
       case Accepted(kind) => a.Begin? && kind == Unknown && !sent
       case Released(_, ok) => a.Settle? && ok && sent
       case Cancelled(_) => a.Close? && !sent
       case _ => false
  }

  class TxProcessor {
    var inflightTxs: seq<nat>
    var highestID: nat

    // The fields agree with `st`.
    ghost predicate Lists(st: State)
      reads this
    {
      inflightTxs == st.txs && highestID == st.nextId
    }

    constructor ()
      ensures Lists(Initial()) && inflightTxs == [] && highestID == 1000000
    {
      inflightTxs, highestID := [], FIRST_ID;
    }

    // Called when request i, a transaction to send, begins.
    method AddInflightWrapper(ghost cfg: Config, ghost st: State, ghost i: nat) returns (id: nat)
      requires Lists(st) && i < |st.requests| && st.requests[i].phase == Accepted(SendTransaction)
      modifies this
      ensures Step(cfg, st, Begin(i)).Some? && Lists(Step(cfg, st, Begin(i)).value)
      ensures Step(cfg, st, Begin(i)).value.requests[i].phase == Listed(id)
      ensures id == old(highestID) && highestID == id + 1 && inflightTxs == old(inflightTxs) + [id]
    {
      id := highestID;
      highestID := highestID + 1;
      inflightTxs := inflightTxs + [id];
    }

    method CancelInFlight(id: nat)
      modifies this`inflightTxs
      ensures inflightTxs == Without(old(inflightTxs), id)
      ensures forall cfg, st, a :: Unlists(st, a, id) && old(Lists(st)) ==>
                Step(cfg, st, a).Some? && Lists(Step(cfg, st, a).value)
    {
      for idx := 0 to |inflightTxs|
        invariant inflightTxs == old(inflightTxs)
        invariant forall j :: 0 <= j < idx ==> inflightTxs[j] != id
      {
        if inflightTxs[idx] == id {
          WithoutAt(inflightTxs, id, idx);
          inflightTxs := inflightTxs[..idx] + inflightTxs[idx + 1..];
          return;
        }
      }
      WithoutAt(inflightTxs, id, |inflightTxs|);
    }
  }

  // Everything but the first occurrence stays, in order; without one, everything does.
  lemma {:induction false} WithoutAt(txs: seq<nat>, n: nat, idx: nat)
    requires idx <= |txs| && (idx < |txs| ==> txs[idx] == n) && forall j :: 0 <= j < idx ==> txs[j] != n
    ensures Without(txs, n) == if idx < |txs| then txs[..idx] + txs[idx + 1..] else txs
  {
    if idx == 0 {
    } else {
      var rest := txs[1..];
      WithoutAt(rest, n, idx - 1);
      assert txs == [txs[0]] + rest;
      if idx < |txs| {
        assert txs[..idx] == [txs[0]] + rest[..idx - 1] && txs[idx + 1..] == rest[idx..];
      }
    }
  }

  class DirectHandler {
    const conf: Config
    var inFlight: map<string, Kind>
    var receipts: seq<(string, bool)>

    // The fields agree with `st`: the map by its keys, the receipts by their requests' IDs.
    ghost predicate Holds(st: State)
      reads this
    {
      && inFlight.Keys == st.inFlight && |receipts| == |st.receipts|
      && forall k :: 0 <= k < |receipts| ==>
           && st.receipts[k].i < |st.requests|
           && receipts[k] == (st.requests[st.receipts[k].i].msgId, st.receipts[k].sent)
    }

    // validateHandlerConf and NewTxProcessor fill in the limits.
    constructor (maxInFlight: int, sendConcurrency: nat)
      ensures inFlight == map[] && receipts == [] && Holds(Initial())
      ensures conf.maxInFlight == (if maxInFlight <= 0 then 10 else maxInFlight)
      ensures conf.sendConcurrency == if sendConcurrency == 0 then 1 else sendConcurrency
    {
      conf := Config(if maxInFlight <= 0 then 10 else maxInFlight, if sendConcurrency == 0 then 1 else sendConcurrency);
      inFlight, receipts := map[], [];
    }

    // dispatchMsg, up to the call of the processor: refuse, or put the request into the map.
    method Admit(msgId: string, kind: Kind, ghost st: State) returns (status: nat)
      requires Holds(st)
      modifies this`inFlight
      ensures status == 429 <==> |old(inFlight)| >= conf.maxInFlight
      ensures status == 200 ==> inFlight == old(inFlight)[msgId := kind]
      ensures Holds(Step(conf, st, Dispatch(msgId, kind)).value)
      ensures status == 429 ==> inFlight == old(inFlight)
      ensures status == 200 || status == 429
    {
      assert |inFlight| == |inFlight.Keys|;
      if |inFlight| >= conf.maxInFlight {
        return 429;
      }
      inFlight := inFlight[msgId := kind];
      status := 200;
    }

    // `sent` tells the receipt of a transaction from an error reply.
    method Reply(msgId: string, sent: bool, ghost st: State, ghost a: Action)
      requires Holds(st) && Answers(st, a, sent) && st.requests[a.i].msgId == msgId
      modifies this
      ensures receipts == old(receipts) + [(msgId, sent)] && inFlight == old(inFlight) - {msgId}
      ensures Step(conf, st, a).Some? && Holds(Step(conf, st, a).value)
    {
      receipts := receipts + [(msgId, sent)];
      inFlight := inFlight - {msgId};
    }
  }
}
