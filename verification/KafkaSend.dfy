/** internal/rest/async/kafkahandler.go: requests that wait for Kafka to report how their message fared,
    as a state machine over the dispatching goroutines and the two delivery-report loops. */
module KafkaSend {
  import opened Options

  // What the producer reports about one message.
  datatype Outcome = Delivered(ack: string) | Failed(error: string)

  // A dispatchMsg call: not yet handed to the producer; about to look for its outcome; asleep on the condition
  // variable; or returned. A call that wants no acknowledgement returns as soon as the message is handed over.
  datatype Phase = Pending | Waiting | Sleeping | Returned(result: Option<Outcome>)

  // `reported` is the producer's report of the message, if there has been one.
  datatype Call = Call(msgId: string, ack: bool, phase: Phase, reported: Option<Outcome>) {
    // The handler keeps track of the message.
    predicate Open() { ack && !phase.Returned? }
  }

  datatype State = State(
    calls: seq<Call>, pending: set<string>, delivered: map<string, string>, failed: map<string, string>)

  datatype Action =
    | Dispatch(msgId: string, ack: bool)
    | Hand(i: nat)
    | Report(i: nat, outcome: Outcome)
    | Check(i: nat)

  function Initial(): State { State([], {}, map[], map[]) }

  function Moved(st: State, i: nat, phase: Phase): State
    requires i < |st.calls|
  {
    st.(calls := st.calls[i := st.calls[i].(phase := phase)])
  }

  function Step(st: State, a: Action): Option<State> {
    match a
    case Dispatch(msgId, ack) =>
      Some(st.(calls := st.calls + [Call(msgId, ack, Pending, None)],
               pending := if ack then st.pending + {msgId} else st.pending))
    case Hand(i) =>
      if i < |st.calls| && st.calls[i].phase.Pending? then
        Some(Moved(st, i, if st.calls[i].ack then Waiting else Returned(None)))
      else None
    case Report(i, outcome) =>
      // the producer reports each message it was handed once
      if i < |st.calls| && !st.calls[i].phase.Pending? && st.calls[i].reported.None? then
        Some(Reported(st, i, st.calls[i].msgId, outcome))
      else None
    case Check(i) =>
      if i < |st.calls| && st.calls[i].phase.Waiting? then Some(Checked(st, i, st.calls[i].msgId)) else None
  }

  // Broadcast
  function Awake(c: Call): Call { if c.phase.Sleeping? then c.(phase := Waiting) else c }

  function Awakened(calls: seq<Call>): seq<Call> { seq(|calls|, i requires 0 <= i < |calls| => Awake(calls[i])) }

  function Noted(calls: seq<Call>, i: nat, outcome: Outcome): seq<Call>
    requires i < |calls|
  {
    calls[i := calls[i].(reported := Some(outcome))]
  }

  // ProducerErrorLoop and ProducerSuccessLoop
  function Reported(st: State, i: nat, msgId: string, outcome: Outcome): State
    requires i < |st.calls|
  {
    var calls := Noted(st.calls, i, outcome);
    if msgId !in st.pending then st.(calls := calls) else
      match outcome
      case Delivered(ack) => State(Awakened(calls), st.pending - {msgId}, st.delivered[msgId := ack], st.failed)
      case Failed(error) => State(Awakened(calls), st.pending - {msgId}, st.delivered, st.failed[msgId := error])
  }

  // One round of waitForSend's loop: failures are looked up first.
  function Checked(st: State, i: nat, msgId: string): State
    requires i < |st.calls|
  {
    if msgId in st.failed then Moved(st, i, Returned(Some(Failed(st.failed[msgId])))).(failed := st.failed - {msgId})
    else if msgId in st.delivered then
      Moved(st, i, Returned(Some(Delivered(st.delivered[msgId])))).(delivered := st.delivered - {msgId})
    else Moved(st, i, Sleeping)
  }

  function RunFrom(st: State, actions: seq<Action>): Option<State> {
    if actions == [] then Some(st) else
      var before := RunFrom(st, actions[..|actions| - 1]);
      if before.None? then None else Step(before.value, actions[|actions| - 1])
  }

  // A call whose ID may be used again: it has returned and been reported; for a new call that wants no
  // acknowledgement it is enough that this one does not wait for its report.
  predicate Leaves(c: Call, ack: bool) {
    if ack then !c.Open() && c.reported.Some? else c.Open() ==> c.reported.Some?
  }

  predicate FreshId(st: State, a: Action) {
    a.Dispatch? ==> forall i :: 0 <= i < |st.calls| && st.calls[i].msgId == a.msgId ==> Leaves(st.calls[i], a.ack)
  }

  ghost predicate FreshRun(st: State, actions: seq<Action>) {
    forall i :: 0 <= i < |actions| && RunFrom(st, actions[..i]).Some? ==>
        FreshId(RunFrom(st, actions[..i]).value, actions[i])
  }

  // --- what every run keeps ---

  // Where the handler keeps the message of an open call.
  predicate Placed(c: Call, pending: set<string>, delivered: map<string, string>, failed: map<string, string>) {
    && (c.msgId in pending <==> c.reported.None?)
    && (c.msgId in delivered <==> c.reported.Some? && c.reported.value.Delivered?)
    && (c.msgId in failed <==> c.reported.Some? && c.reported.value.Failed?)
    && (c.msgId in delivered ==> c.reported == Some(Delivered(delivered[c.msgId])))
    && (c.msgId in failed ==> c.reported == Some(Failed(failed[c.msgId])))
  }

  predicate CallOk(c: Call) {
    && (c.phase.Pending? || c.phase.Sleeping? ==> c.reported.None?)
    && (c.phase.Waiting? || c.phase.Sleeping? ==> c.ack)
    && (c.phase.Returned? ==> c.phase.result == if c.ack then c.reported else None)
    && (c.phase.Returned? && c.ack ==> c.reported.Some?)
  }

  // An open call is the only one that the reports and maps can mean by its ID.
  predicate Apart(c: Call, d: Call) {
    c.Open() && c.msgId == d.msgId ==> !d.Open() && (c.reported.Some? || d.reported.Some?)
  }

  // Every stored ID belongs to an open call.
  ghost predicate Owned(calls: seq<Call>, id: string) {
    exists i :: 0 <= i < |calls| && calls[i].Open() && calls[i].msgId == id
  }

  function Ids(st: State): set<string> { st.pending + st.delivered.Keys + st.failed.Keys }

  ghost predicate Inv(st: State) {
    && (forall i, j :: 0 <= i < |st.calls| && 0 <= j < |st.calls| && i != j ==> Apart(st.calls[i], st.calls[j]))
    && (forall i :: 0 <= i < |st.calls| ==> CallOk(st.calls[i]))
    && (forall i :: 0 <= i < |st.calls| && st.calls[i].Open() ==>
         Placed(st.calls[i], st.pending, st.delivered, st.failed))
    && (forall id :: id in Ids(st) ==> Owned(st.calls, id))
  }

  lemma OwnedMore(calls: seq<Call>, c: Call, id: string)
    requires Owned(calls, id)
    ensures Owned(calls + [c], id)
  {
    var i :| 0 <= i < |calls| && calls[i].Open() && calls[i].msgId == id;
    assert (calls + [c])[i] == calls[i];
  }

  lemma FreshUnstored(st: State, msgId: string)
    requires Inv(st) && FreshId(st, Dispatch(msgId, true))
    ensures msgId !in Ids(st)
  {
    assert msgId in Ids(st) ==> Owned(st.calls, msgId);
  }

  lemma InvDispatch(st: State, msgId: string, ack: bool)
    requires Inv(st) && FreshId(st, Dispatch(msgId, ack))
    ensures Inv(Step(st, Dispatch(msgId, ack)).value)
  {
    var st', c := Step(st, Dispatch(msgId, ack)).value, Call(msgId, ack, Pending, None);
    if ack { FreshUnstored(st, msgId); }
    forall id | id in Ids(st') ensures Owned(st'.calls, id) {
      if id in Ids(st) { OwnedMore(st.calls, c, id); } else { assert st'.calls[|st.calls|] == c; }
    }
  }

  // The maps differ under `id` at most.
  ghost predicate SameBut(id: string, st: State, st': State) {
    forall k :: k != id ==>
      && (k in st'.pending <==> k in st.pending)
      && (k in st'.delivered <==> k in st.delivered) && (k in st.delivered ==> st'.delivered[k] == st.delivered[k])
      && (k in st'.failed <==> k in st.failed) && (k in st.failed ==> st'.failed[k] == st.failed[k])
  }

  // What an open call does to its own message.
  ghost predicate OwnStep(st: State, st': State, i: nat) {
    && i < |st.calls| == |st'.calls| && st.calls[i].Open() && SameBut(st.calls[i].msgId, st, st')
    && st'.calls == st.calls[i := st'.calls[i]] && CallOk(st'.calls[i])
    && st'.calls[i].msgId == st.calls[i].msgId && st'.calls[i].ack
    && (st.calls[i].reported.Some? ==> st'.calls[i].reported.Some?)
    && if st'.calls[i].Open() then Placed(st'.calls[i], st'.pending, st'.delivered, st'.failed)
       else st.calls[i].msgId !in Ids(st')
  }

  lemma OwnStepOwned(st: State, st': State, i: nat, id: string)
    requires Inv(st) && OwnStep(st, st', i) && id in Ids(st')
    ensures Owned(st'.calls, id)
  {
    if id == st.calls[i].msgId {
      assert st'.calls[i].msgId == id;
    } else {
      assert id in Ids(st);
      var j :| 0 <= j < |st.calls| && st.calls[j].Open() && st.calls[j].msgId == id;
      assert st'.calls[j] == st.calls[j];
    }
  }

  lemma InvOwnStep(st: State, st': State, i: nat)
    requires Inv(st) && OwnStep(st, st', i)
    ensures Inv(st')
  {
    forall j | 0 <= j < |st'.calls| && st'.calls[j].Open()
      ensures Placed(st'.calls[j], st'.pending, st'.delivered, st'.failed)
    {
      if j != i { assert Apart(st.calls[j], st.calls[i]); }
    }
    forall j, k | 0 <= j < |st'.calls| && 0 <= k < |st'.calls| && j != k ensures Apart(st'.calls[j], st'.calls[k]) {
      assert Apart(st.calls[j], st.calls[k]);
    }
    forall id | id in Ids(st') ensures Owned(st'.calls, id) { OwnStepOwned(st, st', i, id); }
  }

  // A call that wants no acknowledgement moves without touching the maps.
  lemma InvOutside(st: State, i: nat, c: Call)
    requires Inv(st) && i < |st.calls| && !st.calls[i].ack && !c.ack && c.msgId == st.calls[i].msgId && CallOk(c)
    requires st.calls[i].reported.Some? ==> c.reported.Some?
    ensures Inv(st.(calls := st.calls[i := c]))
  {
    var calls := st.calls[i := c];
    forall j, k | 0 <= j < |calls| && 0 <= k < |calls| && j != k ensures Apart(calls[j], calls[k]) {
      assert Apart(st.calls[j], st.calls[k]);
    }
    forall id | id in Ids(st) ensures Owned(calls, id) {
      var j :| 0 <= j < |st.calls| && st.calls[j].Open() && st.calls[j].msgId == id;
      assert calls[j] == st.calls[j];
    }
  }

  lemma InvAwakened(st: State)
    requires Inv(st)
    ensures Inv(st.(calls := Awakened(st.calls)))
  {
    var calls := Awakened(st.calls);
    forall j, k | 0 <= j < |calls| && 0 <= k < |calls| && j != k ensures Apart(calls[j], calls[k]) {
      assert Apart(st.calls[j], st.calls[k]);
    }
    forall id | id in Ids(st) ensures Owned(calls, id) {
      var j :| 0 <= j < |st.calls| && st.calls[j].Open() && st.calls[j].msgId == id;
      assert calls[j] == Awake(st.calls[j]);
    }
  }

  // A report that no open call waits for finds its ID gone.
  lemma NotPending(st: State, i: nat)
    requires Inv(st) && i < |st.calls| && !st.calls[i].Open() && st.calls[i].reported.None?
    ensures st.calls[i].msgId !in st.pending
  {
    var id := st.calls[i].msgId;
    assert id in st.pending ==> id in Ids(st) && Owned(st.calls, id);
    assert forall j :: 0 <= j < |st.calls| && j != i ==> Apart(st.calls[j], st.calls[i]);
  }

  // The report without its broadcast. The reported call is not asleep: the broadcast finds it about to look.
  function Quiet(st: State, i: nat, outcome: Outcome): State
    requires i < |st.calls|
  {
    var st' := Reported(st, i, st.calls[i].msgId, outcome);
    st'.(calls := st.calls[i := Awake(st.calls[i]).(reported := Some(outcome))])
  }

  lemma QuietInv(st: State, i: nat, outcome: Outcome)
    requires Inv(st) && Step(st, Report(i, outcome)).Some? && st.calls[i].Open()
    ensures Inv(Quiet(st, i, outcome))
  {
    assert CallOk(st.calls[i]) && Placed(st.calls[i], st.pending, st.delivered, st.failed);
    InvOwnStep(st, Quiet(st, i, outcome), i);
  }

  lemma InvReport(st: State, i: nat, outcome: Outcome)
    requires Inv(st) && Step(st, Report(i, outcome)).Some?
    ensures Inv(Step(st, Report(i, outcome)).value)
  {
    assert CallOk(st.calls[i]);
    if st.calls[i].Open() {
      QuietInv(st, i, outcome);
      InvAwakened(Quiet(st, i, outcome));
      assert st.calls[i].msgId in st.pending;
      assert Awakened(Quiet(st, i, outcome).calls) == Awakened(Noted(st.calls, i, outcome));
    } else {
      NotPending(st, i);
      InvOutside(st, i, st.calls[i].(reported := Some(outcome)));
    }
  }

  lemma InvCheck(st: State, i: nat)
    requires Inv(st) && Step(st, Check(i)).Some?
    ensures Inv(Step(st, Check(i)).value)
  {
    assert CallOk(st.calls[i]) && Placed(st.calls[i], st.pending, st.delivered, st.failed);
    InvOwnStep(st, Step(st, Check(i)).value, i);
  }

  lemma InvHand(st: State, i: nat)
    requires Inv(st) && Step(st, Hand(i)).Some?
    ensures Inv(Step(st, Hand(i)).value)
  {
    assert CallOk(st.calls[i]);
    if st.calls[i].ack {
      InvOwnStep(st, Step(st, Hand(i)).value, i);
    } else {
      InvOutside(st, i, st.calls[i].(phase := Returned(None)));
    }
  }

  lemma InvStep(st: State, a: Action)
    requires Inv(st) && FreshId(st, a) && Step(st, a).Some?
    ensures Inv(Step(st, a).value)
  {
    match a
    case Dispatch(msgId, ack) => InvDispatch(st, msgId, ack);
    case Hand(i) => InvHand(st, i);
    case Report(i, outcome) => InvReport(st, i, outcome);
    case Check(i) => InvCheck(st, i);
  }

  lemma {:induction false} InvRun(st: State, actions: seq<Action>)
    requires Inv(st) && FreshRun(st, actions) && RunFrom(st, actions).Some?
    ensures Inv(RunFrom(st, actions).value)
  {
    if actions == [] {
    } else {
      var n := |actions| - 1;
      var front := actions[..n];
      forall i | 0 <= i < n && RunFrom(st, front[..i]).Some? ensures FreshId(RunFrom(st, front[..i]).value, front[i]) {
        assert front[..i] == actions[..i];
      }
      InvRun(st, front);
      assert FreshId(RunFrom(st, actions[..n]).value, actions[n]);
      InvStep(RunFrom(st, front).value, actions[n]);
    }
  }

  // Each call that returned brought what the producer reported about its own message.
  ghost predicate OwnOutcomes(st: State) {
    forall i :: 0 <= i < |st.calls| && st.calls[i].phase.Returned? ==>
      if st.calls[i].ack then st.calls[i].phase.result == st.calls[i].reported && st.calls[i].reported.Some?
      else st.calls[i].phase.result.None?
  }

  lemma OutcomesOwn(st: State)
    requires Inv(st)
    ensures OwnOutcomes(st)
  {
    assert forall i :: 0 <= i < |st.calls| ==> CallOk(st.calls[i]);
  }

  // A message is pending, delivered or failed, never two of these at once, and each call returns what
  // the producer reported about its own message.
  lemma EachItsOwnOutcome(actions: seq<Action>)
    requires FreshRun(Initial(), actions) && RunFrom(Initial(), actions).Some?
    ensures var st := RunFrom(Initial(), actions).value;
            st.pending !! st.delivered.Keys !! st.failed.Keys && OwnOutcomes(st)
  {
    InvRun(Initial(), actions);
    var st := RunFrom(Initial(), actions).value;
    OutcomesOwn(st);
    forall id | id in Ids(st)
      ensures (id in st.pending ==> id !in st.delivered && id !in st.failed)
      ensures (id in st.delivered ==> id !in st.failed)
    {
      var i :| 0 <= i < |st.calls| && st.calls[i].Open() && st.calls[i].msgId == id;
      assert Placed(st.calls[i], st.pending, st.delivered, st.failed);
    }
  }

  // No wake-up is lost: in no state of any run does a call sleep whose message has been reported, and one about
  // to look returns exactly when its message has been reported.
  lemma NoWakeUpLost(actions: seq<Action>, i: nat)
    requires FreshRun(Initial(), actions) && RunFrom(Initial(), actions).Some?
    requires i < |RunFrom(Initial(), actions).value.calls|
    ensures var st := RunFrom(Initial(), actions).value;
            && (st.calls[i].phase.Sleeping? ==> st.calls[i].reported.None?)
            && (st.calls[i].phase.Waiting? ==>
                  && Step(st, Check(i)).Some?
                  && (Step(st, Check(i)).value.calls[i].phase.Returned? <==> st.calls[i].reported.Some?))
  {
    InvRun(Initial(), actions);
    var c, st := RunFrom(Initial(), actions).value.calls[i], RunFrom(Initial(), actions).value;
    assert CallOk(c);
    if c.phase.Waiting? { assert Placed(c, st.pending, st.delivered, st.failed); }
  }

  // When every call has returned, the handler has forgotten them all.
  lemma NothingKept(st: State)
    requires Inv(st) && forall i :: 0 <= i < |st.calls| ==> st.calls[i].phase.Returned?
    ensures st.pending == {} && st.delivered == map[] && st.failed == map[]
  {
    assert forall id :: id in Ids(st) ==> Owned(st.calls, id);
    assert Ids(st) == {};
    assert st.delivered.Keys == {} && st.failed.Keys == {};
  }
}
