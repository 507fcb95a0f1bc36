/** internal/rest/async/kafkahandler.go: exactly when a message ID may be used again. */
module KafkaReuse {
  import opened Options
  import opened KafkaSend

  ghost predicate Comes(st: State, steps: seq<Action>, st': State) {
    RunFrom(st, steps) == Some(st') && forall k :: 0 <= k < |steps| ==> !steps[k].Dispatch?
  }

  // However the calls made so far go on, each returns the outcome of its own message.
  ghost predicate StaysOwn(st: State) { forall steps, st' :: Comes(st, steps, st') ==> OwnOutcomes(st') }

  lemma ComesNext(st: State, steps: seq<Action>, st': State, a: Action)
    requires Comes(st, steps, st') && !a.Dispatch? && Step(st', a).Some?
    ensures Comes(st, steps + [a], Step(st', a).value)
  {
    assert (steps + [a])[..|steps|] == steps;
  }

  lemma Unbroken(st: State)
    requires Inv(st)
    ensures StaysOwn(st)
  {
    forall steps, st' | Comes(st, steps, st') ensures OwnOutcomes(st') {
      InvRun(st, steps);
      OutcomesOwn(st');
    }
  }

  // A mix-up later on is a mix-up.
  lemma StaysOwnStep(st: State, a: Action)
    requires StaysOwn(st) && !a.Dispatch? && Step(st, a).Some?
    ensures StaysOwn(Step(st, a).value)
  {
    var st1 := Step(st, a).value;
    forall steps, st' | Comes(st1, steps, st') ensures OwnOutcomes(st') {
      Prepend(st, a, steps, st');
    }
  }

  lemma {:induction false} Prepend(st: State, a: Action, steps: seq<Action>, st': State)
    requires !a.Dispatch? && Step(st, a).Some? && Comes(Step(st, a).value, steps, st')
    ensures Comes(st, [a] + steps, st')
  {
    if steps == [] {
      assert ([a] + steps)[..0] == [];
      assert [a] + steps == [a];
    } else {
      var n := |steps| - 1;
      Prepend(st, a, steps[..n], RunFrom(Step(st, a).value, steps[..n]).value);
      ComesNext(st, [a] + steps[..n], RunFrom(Step(st, a).value, steps[..n]).value, steps[n]);
      assert [a] + steps[..n] + [steps[n]] == [a] + steps;
    }
  }

  lemma OwnNow(st: State)
    requires StaysOwn(st)
    ensures OwnOutcomes(st)
  {
    assert Comes(st, [], st);
  }

  // A call that looks and finds an outcome under its ID takes it, reported or not.
  lemma Takes(st: State, i: nat)
    requires i < |st.calls| && st.calls[i].ack && st.calls[i].phase.Waiting? && st.calls[i].reported.None?
    requires st.calls[i].msgId in st.delivered || st.calls[i].msgId in st.failed
    ensures !StaysOwn(st)
  {
    assert Step(st, Check(i)).value.calls[i].phase.Returned?;
    if StaysOwn(st) {
      StaysOwnStep(st, Check(i));
      OwnNow(Step(st, Check(i)).value);
    }
  }

  // The report of one call's message is taken for another's.
  lemma TakesReport(st: State, i: nat, k: nat)
    requires i < |st.calls| && k < |st.calls| && i != k && st.calls[i].msgId == st.calls[k].msgId
    requires st.calls[i].ack && (st.calls[i].phase.Waiting? || st.calls[i].phase.Sleeping?)
    requires st.calls[i].reported.None?
    requires !st.calls[k].phase.Pending? && st.calls[k].reported.None? && st.calls[i].msgId in st.pending
    ensures !StaysOwn(st)
  {
    var a := Report(k, Delivered(""));
    var st' := Step(st, a).value;
    assert st'.calls[i] == Awake(st.calls[i]);
    Takes(st', i);
    if StaysOwn(st) { StaysOwnStep(st, a); }
  }

  function Handed(st: State, i: nat): State
    requires i < |st.calls|
  {
    if st.calls[i].phase.Pending? then Step(st, Hand(i)).value else st
  }

  lemma HandedToo(st: State, i: nat)
    requires i < |st.calls| && StaysOwn(st)
    ensures StaysOwn(Handed(st, i))
  {
    if st.calls[i].phase.Pending? { StaysOwnStep(st, Hand(i)); }
  }

  // A new call under the ID of one that is unreported: either can be taken for the other.
  lemma MixesUnreported(st: State, j: nat, ack: bool)
    requires Inv(st) && j < |st.calls| && st.calls[j].reported.None? && (ack || st.calls[j].Open())
    ensures !StaysOwn(Step(st, Dispatch(st.calls[j].msgId, ack)).value)
  {
    var n, st1 := |st.calls|, Step(st, Dispatch(st.calls[j].msgId, ack)).value;
    assert CallOk(st.calls[j]);
    assert st.calls[j].Open() ==> Placed(st.calls[j], st.pending, st.delivered, st.failed);
    var st2 := Handed(st1, j);
    var st3 := Handed(st2, n);
    if ack { TakesReport(st3, n, j); } else { TakesReport(st3, j, n); }
    if StaysOwn(st1) {
      HandedToo(st1, j);
      HandedToo(st2, n);
    }
  }

  // A new call under the ID of one whose outcome is still to be fetched.
  lemma MixesUnfetched(st: State, j: nat)
    requires Inv(st) && j < |st.calls| && st.calls[j].Open() && st.calls[j].reported.Some?
    ensures !StaysOwn(Step(st, Dispatch(st.calls[j].msgId, true)).value)
  {
    var n, st1 := |st.calls|, Step(st, Dispatch(st.calls[j].msgId, true)).value;
    assert Placed(st.calls[j], st.pending, st.delivered, st.failed);
    var st2 := Handed(st1, n);
    Takes(st2, n);
    if StaysOwn(st1) { HandedToo(st1, n); }
  }

  // After a new call, every call still returns the outcome of its own message if and only if the ID was fresh.
  lemma ReuseExactly(st: State, msgId: string, ack: bool)
    requires Inv(st)
    ensures StaysOwn(Step(st, Dispatch(msgId, ack)).value) <==> FreshId(st, Dispatch(msgId, ack))
  {
    if FreshId(st, Dispatch(msgId, ack)) {
      InvDispatch(st, msgId, ack);
      Unbroken(Step(st, Dispatch(msgId, ack)).value);
    } else {
      var j :| 0 <= j < |st.calls| && st.calls[j].msgId == msgId && !Leaves(st.calls[j], ack);
      if st.calls[j].reported.None? { MixesUnreported(st, j, ack); } else { MixesUnfetched(st, j); }
    }
  }
}
