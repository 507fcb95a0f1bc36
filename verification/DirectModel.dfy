/** Direct dispatch of transactions: internal/rest/async/directhandler.go in front of
    internal/tx/txprocessor.go, as a state machine over the goroutines that carry the requests.
    Each action is a stretch of code between two points where goroutines can interleave. */
module DirectModel {
  import opened Options

  // After the defaults have been filled in.
  datatype Config = Config(maxInFlight: nat, sendConcurrency: nat)

  datatype Kind = SendTransaction | Unknown

  // How far the goroutine of an accepted request has come; `n` is its number in the in-flight list.
  datatype Phase =
    | Accepted(kind: Kind)
    | Listed(n: nat)
    | Sending(n: nat)
    | Sent(n: nat, ok: bool)
    | Released(n: nat, ok: bool)
    | Replied(n: nat)
    | Cancelled(n: nat)
    | Finished(sent: bool)
  {
    predicate InList() { Listed? || Sending? || Sent? || Released? || Replied? }
    predicate HasSlot() { Sending? || Sent? }
    predicate Answered() { Replied? || Finished? }
    // How many steps are left.
    function Rank(): nat {
      match this
      case Accepted(_) => 6
      case Listed(_) => 5
      case Sending(_) => 4
      case Sent(_, _) => 3
      case Released(_, _) => 2
      case Replied(_) => 1
      case Cancelled(_) => 1
      case Finished(_) => 0
    }
  }

  datatype Request = Request(msgId: string, phase: Phase)

  // The receipt of request i, and whether it tells of a transaction that was sent.
  datatype Answer = Answer(i: nat, sent: bool)

  // `inFlight` holds the keys of the handler's map, `txs` the processor's list, `receipts` the requests
  // answered so far, by their place in `requests`.
  datatype State = State(
    requests: seq<Request>, inFlight: set<string>, txs: seq<nat>, nextId: nat, slots: nat, receipts: seq<Answer>)

  const FIRST_ID := 1000000

  function Initial(): State { State([], {}, [], FIRST_ID, 0, []) }

  datatype Action =
    | Dispatch(msgId: string, kind: Kind)
    | Begin(i: nat)
    | StartSend(i: nat)
    | EndSend(i: nat, ok: bool)
    | FreeSlot(i: nat)
    | Settle(i: nat)
    | Close(i: nat)

  // cancelInFlight
  function Without(txs: seq<nat>, n: nat): seq<nat> {
    if txs == [] then [] else if txs[0] == n then txs[1..] else [txs[0]] + Without(txs[1..], n)
  }

  function Moved(st: State, i: nat, phase: Phase): State
    requires i < |st.requests|
  {
    st.(requests := st.requests[i := st.requests[i].(phase := phase)])
  }

  // Reply: the receipt is stored and the request leaves the handler's map.
  function Reply(st: State, i: nat, phase: Phase, sent: bool): State
    requires i < |st.requests|
  {
    Moved(st, i, phase).(receipts := st.receipts + [Answer(i, sent)],
                         inFlight := st.inFlight - {st.requests[i].msgId})
  }

  function Step(cfg: Config, st: State, a: Action): Option<State> {
    match a
    case Dispatch(msgId, kind) =>
      if |st.inFlight| >= cfg.maxInFlight then Some(st) else
        Some(st.(requests := st.requests + [Request(msgId, Accepted(kind))], inFlight := st.inFlight + {msgId}))
    case _ => if a.i < |st.requests| then Advance(cfg, st, a, st.requests[a.i].phase) else None
  }

  function Advance(cfg: Config, st: State, a: Action, phase: Phase): Option<State>
    requires !a.Dispatch? && a.i < |st.requests|
  {
    match (a, phase)
    case (Begin(i), Accepted(Unknown)) => Some(Reply(st, i, Finished(false), false))
    case (Begin(i), Accepted(SendTransaction)) =>
      Some(Moved(st, i, Listed(st.nextId)).(txs := st.txs + [st.nextId], nextId := st.nextId + 1))
    case (StartSend(i), Listed(n)) =>
      if cfg.sendConcurrency <= 1 then Some(Moved(st, i, Sending(n)))
      else if st.slots < cfg.sendConcurrency then Some(Moved(st, i, Sending(n)).(slots := st.slots + 1))
      else None
    case (EndSend(i, ok), Sending(n)) => Some(Moved(st, i, Sent(n, ok)))
    case (FreeSlot(i), Sent(n, ok)) =>
      if cfg.sendConcurrency <= 1 then Some(Moved(st, i, Released(n, ok)))
      else if st.slots > 0 then Some(Moved(st, i, Released(n, ok)).(slots := st.slots - 1))
      else None
    case (Settle(i), Released(n, true)) => Some(Reply(st, i, Replied(n), true))
    case (Settle(i), Released(n, false)) => Some(Moved(st, i, Cancelled(n)).(txs := Without(st.txs, n)))
    case (Close(i), Replied(n)) => Some(Moved(st, i, Finished(true)).(txs := Without(st.txs, n)))
    case (Close(i), Cancelled(n)) => Some(Reply(st, i, Finished(false), false))
    case _ => None
  }

  function Run(cfg: Config, actions: seq<Action>): Option<State> {
    if actions == [] then Some(Initial()) else
      var before := Run(cfg, actions[..|actions| - 1]);
      if before.None? then None else Step(cfg, before.value, actions[|actions| - 1])
  }

  // No request is accepted under the ID of one that is still in flight.
  predicate FreshId(cfg: Config, st: State, a: Action) {
    a.Dispatch? && |st.inFlight| < cfg.maxInFlight ==> a.msgId !in st.inFlight
  }

  ghost predicate FreshRun(cfg: Config, actions: seq<Action>) {
    forall i :: 0 <= i < |actions| && Run(cfg, actions[..i]).Some? ==>
        FreshId(cfg, Run(cfg, actions[..i]).value, actions[i])
  }
}
