/** processBatch's loop, as EventStream has it, against the processor's steps in StreamModel: the same attempts lead to
    the same end. */
module StreamBatch {
  import opened Options
  import opened Ledger
  import opened StreamModel
  import opened StreamReach
  import opened EventStreams
  import opened HighWater

  // The actions of processor w and of whoever suspends the stream, as the attempts meet them.
  function Acts(w: nat, script: seq<Attempt>, handling: ErrorHandling): seq<Action> {
    if script == [] then [Control(Suspend), Process(w, Interrupt)] else
      match script[0]
      case Succeeded => [Process(w, Deliver)]
      case Hollow => [Control(Suspend), Process(w, ProcessorAction.Hollow)]
      case Failed => [Process(w, Fail)] + if handling.SkipOnError? then [] else Acts(w, script[1..], handling)
  }

  // What becomes of a batch that is settled so.
  function Settles(st: State, w: nat, b: seq<Event>, r: Settlement): State
    requires w < |st.processors|
  {
    var after :=
      if !r.processed then st.(history := st.history.(abandoned := st.history.abandoned + b))
      else if r.suspended then st.(history := st.history.(unattempted := st.history.unattempted + b))
      else
        st.(history := st.history.(done := st.history.done + b),
            record := st.record.(completed := st.record.completed + set e | e in b));
    after.(processors := st.processors[w := Settled(b, r.processed)],
           stream := st.stream.(suspended := r.suspended))
  }

  lemma OneAct(env: Env, st: State, a: Action)
    ensures Run(env, st, [a]) == Step(env, st, a)
  {
    assert [a][..0] == [];
  }

  lemma TwoActs(env: Env, st: State, a: Action, b: Action)
    requires Step(env, st, a).Some?
    ensures Run(env, st, [a, b]) == Step(env, Step(env, st, a).value, b)
  {
    assert [a, b][..1] == [a];
    OneAct(env, st, a);
  }

  lemma GivenUp(env: Env, st: State, w: nat, b: seq<Event>)
    requires w < |st.processors| && st.processors[w] == Attempting(b)
    ensures Run(env, st, [Control(Suspend), Process(w, Interrupt)]) ==
            Some(Settles(st, w, b, Settlement(0, false, true)))
  {
    TwoActs(env, st, Control(Suspend), Process(w, Interrupt));
  }

  lemma NotAttempted(env: Env, st: State, w: nat, b: seq<Event>)
    requires w < |st.processors| && st.processors[w] == Attempting(b)
    ensures Run(env, st, [Control(Suspend), Process(w, ProcessorAction.Hollow)]) ==
            Some(Settles(st, w, b, Settlement(1, true, true)))
  {
    TwoActs(env, st, Control(Suspend), Process(w, ProcessorAction.Hollow));
  }

  lemma Finished(env: Env, st: State, w: nat, b: seq<Event>, a: ProcessorAction)
    requires w < |st.processors| && st.processors[w] == Attempting(b) && !st.stream.SuspendOrStop()
    requires a.Deliver? || (a.Fail? && env.errorHandling.SkipOnError?)
    ensures Run(env, st, [Process(w, a)]) == Some(Settles(st, w, b, Settlement(1, true, false)))
  {
    OneAct(env, st, Process(w, a));
  }

  lemma LastAct(env: Env, st: State, w: nat, b: seq<Event>, script: seq<Attempt>)
    requires w < |st.processors| && st.processors[w] == Attempting(b) && !st.stream.SuspendOrStop()
    requires script == [] || !script[0].Failed? || env.errorHandling.SkipOnError?
    ensures Run(env, st, Acts(w, script, env.errorHandling)) ==
            Some(Settles(st, w, b, Settle(script, env.errorHandling)))
  {
    if script == [] {
      GivenUp(env, st, w, b);
    } else if script[0].Hollow? {
      NotAttempted(env, st, w, b);
    } else if script[0].Succeeded? {
      Finished(env, st, w, b, Deliver);
    } else {
      assert [Process(w, Fail)] + [] == [Process(w, Fail)];
      Finished(env, st, w, b, Fail);
    }
  }

  // The loop ends where the processor's steps end.
  lemma {:induction false} AttemptsRun(env: Env, st: State, w: nat, b: seq<Event>, script: seq<Attempt>)
    requires w < |st.processors| && st.processors[w] == Attempting(b) && !st.stream.SuspendOrStop()
    ensures Run(env, st, Acts(w, script, env.errorHandling)) ==
            Some(Settles(st, w, b, Settle(script, env.errorHandling)))
  {
    if script == [] || !script[0].Failed? || env.errorHandling.SkipOnError? {
      LastAct(env, st, w, b, script);
    } else {
      OneAct(env, st, Process(w, Fail));
      assert st.processors[w := Attempting(b)] == st.processors;
      assert Step(env, st, Process(w, Fail)) == Some(st);
      AttemptsRun(env, st, w, b, script[1..]);
      RunOn(env, st, [Process(w, Fail)], Acts(w, script[1..], env.errorHandling));
    }
  }

  // With the count adjusted, the stream is as ProcessBatch leaves it.
  lemma BatchRuns(env: Env, st: State, w: nat, b: seq<Event>, script: seq<Attempt>)
    requires w < |st.processors| && st.processors[w] == Attempting(b) && !st.stream.SuspendOrStop()
    ensures var end := Run(env, st, Acts(w, script, env.errorHandling) + [Process(w, Count)]);
            var r := Settle(script, env.errorHandling);
            && end.Some? && end.value.processors[w] == Counted(b, r.processed)
            && end.value.stream ==
               (if r.processed then st.stream.CountOff(|b|) else st.stream).(suspended := r.suspended)
  {
    AttemptsRun(env, st, w, b, script);
    RunOn(env, st, Acts(w, script, env.errorHandling), [Process(w, Count)]);
    ThenCounted(env, st, w, b, Settle(script, env.errorHandling));
  }

  lemma ThenCounted(env: Env, st: State, w: nat, b: seq<Event>, r: Settlement)
    requires w < |st.processors|
    ensures var end := Run(env, Settles(st, w, b, r), [Process(w, Count)]);
            && end.Some? && end.value.processors[w] == Counted(b, r.processed)
            && end.value.stream ==
               (if r.processed then st.stream.CountOff(|b|) else st.stream).(suspended := r.suspended)
  {
    OneAct(env, Settles(st, w, b, r), Process(w, Count));
  }

  // --- the callbacks ---

  function AckActs(w: nat, order: seq<SubId>): seq<Action> {
    if order == [] then [Process(w, EndAcks)] else [Process(w, Ack(order[0]))] + AckActs(w, order[1..])
  }

  function Acked(st: State, w: nat, hwm: Marks): State
    requires w < |st.processors|
  {
    st.(processors := st.processors[w := Waiting], subs := st.subs.(hwm := hwm))
  }

  lemma OneAck(env: Env, st: State, w: nat, calls: map<SubId, Event>, s: SubId)
    requires w < |st.processors| && st.processors[w] == Acking(calls) && s in calls
    ensures Run(env, st, [Process(w, Ack(s))]) ==
            Some(st.(processors := st.processors[w := Acking(calls - {s})],
                     subs := st.subs.(hwm := Raise(st.subs.hwm, calls[s]))))
  {
    OneAct(env, st, Process(w, Ack(s)));
  }

  lemma {:induction false} RaiseFewer(m: Marks, calls: map<SubId, Event>, fewer: map<SubId, Event>, order: seq<SubId>)
    requires forall s :: s in order ==> s in calls && s in fewer && calls[s] == fewer[s]
    ensures RaiseInOrder(m, calls, order) == RaiseInOrder(m, fewer, order)
    decreases |order|
  {
    if order == [] {
    } else {
      RaiseFewer(Raise(m, calls[order[0]]), calls, fewer, order[1..]);
    }
  }

  lemma RestEnumerates(order: seq<SubId>, calls: map<SubId, Event>)
    requires order != [] && Enumerates(order, calls)
    ensures order[0] in calls && Enumerates(order[1..], calls - {order[0]})
  {
    assert order == [order[0]] + order[1..];
  }

  // In whatever order the callbacks are made, the marks end as that order raises them.
  lemma {:induction false} AcksRun(env: Env, st: State, w: nat, calls: map<SubId, Event>, order: seq<SubId>)
    requires w < |st.processors| && st.processors[w] == Acking(calls) && Enumerates(order, calls)
    ensures Run(env, st, AckActs(w, order)) == Some(Acked(st, w, RaiseInOrder(st.subs.hwm, calls, order)))
    decreases |order|
  {
    if order == [] {
      assert calls == map[];
      OneAct(env, st, Process(w, EndAcks));
    } else {
      var s := order[0];
      RestEnumerates(order, calls);
      OneAck(env, st, w, calls, s);
      var next := Run(env, st, [Process(w, Ack(s))]).value;
      AcksRun(env, next, w, calls - {s}, order[1..]);
      RaiseFewer(next.subs.hwm, calls, calls - {s}, order[1..]);
      RunOn(env, st, [Process(w, Ack(s))], AckActs(w, order[1..]));
      assert next.processors[w := Waiting] == st.processors[w := Waiting];
    }
  }

  // A batch that has been counted off is acknowledged in full, as ProcessBatch does it, unless the stream has been
  // suspended or stopped; then no mark moves.
  lemma CallbacksRun(env: Env, st: State, w: nat, b: seq<Event>, processed: bool, order: seq<SubId>)
    requires w < |st.processors| && st.processors[w] == Counted(b, processed) && Enumerates(order, LastPerSub(b))
    ensures if st.stream.SuspendOrStop() then
              Run(env, st, [Process(w, BeginAcks)]) == Some(Acked(st, w, st.subs.hwm))
            else
              Run(env, st, [Process(w, BeginAcks)] + AckActs(w, order)) ==
              Some(Acked(st, w, RaiseInOrder(st.subs.hwm, LastPerSub(b), order)))
  {
    OneAct(env, st, Process(w, BeginAcks));
    if !st.stream.SuspendOrStop() {
      var next := Run(env, st, [Process(w, BeginAcks)]).value;
      AcksRun(env, next, w, LastPerSub(b), order);
      RunOn(env, st, [Process(w, BeginAcks)], AckActs(w, order));
      assert next.processors[w := Waiting] == st.processors[w := Waiting];
    }
  }
}
