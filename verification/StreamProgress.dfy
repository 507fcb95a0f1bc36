/** What a running stream can still deliver: all that is on its way, and all that its open filters have yet to relay. */
module StreamProgress {
  import opened Options
  import opened Ledger
  import opened StreamModel
  import opened StreamConservation
  import opened StreamReach
  import opened StreamResume

  // --- a running stream has its processor ---

  ghost predicate Manned(st: State) { st.processors == [] ==> st.stream.SuspendOrStop() }

  lemma MannedStep(env: Env, st: State, a: Action)
    requires OneWorkerEach(st) && Manned(st) && Step(env, st, a).Some?
    ensures Manned(Step(env, st, a).value)
  {
  }

  lemma {:induction false} MannedRun(env: Env, actions: seq<Action>)
    requires Run(env, Initial(), actions).Some?
    ensures Manned(Run(env, Initial(), actions).value)
  {
    if actions == [] {
    } else {
      var n := |actions| - 1;
      MannedRun(env, actions[..n]);
      StreamInvRun(env, actions[..n]);
      MannedStep(env, Run(env, Initial(), actions[..n]).value, actions[n]);
    }
  }

  // --- what is on its way ---

  // Whatever the processor is doing, it can finish and deliver what it holds.
  lemma ProcessorFrees(env: Env, from: State, st: State, p: Processor) returns (st': State)
    requires Draining(env, from, st, p)
    ensures Draining(env, from, st', Waiting) && st'.stream.batchQueue == st.stream.batchQueue && Carried(st, st')
    ensures p.Attempting? ==> forall e :: e in p.batch ==> e in st'.record.completed
  {
    match p
    case Waiting => st' := st;
    case Attempting(b) =>
      st' := DrainStep(env, from, st, p, Deliver, Settled(b, true));
      st' := BatchDrains(env, from, st', b, true);
    case Settled(b, processed) => st' := BatchDrains(env, from, st, b, processed);
    case Counted(b, processed) =>
      st' := DrainStep(env, from, st, p, BeginAcks, Acking(LastPerSub(b)));
      st' := AcksDrain(env, from, st', LastPerSub(b));
    case Acking(calls) => st' := AcksDrain(env, from, st, calls);
  }

  lemma PipelineDrains(env: Env, st: State) returns (st': State)
    requires StreamInv(env, st) && Accounted(st) && Manned(st) && !st.stream.suspended && !st.stream.stopped
    ensures Draining(env, st, st', Waiting) && st'.stream.batchQueue == [] && Carried(st, st')
    ensures forall e :: e in Pipeline(st) ==> e in st'.record.completed
  {
    var p := st.processors[0];
    assert st.processors == [p];
    var queued := CurrentQueued(env, st, p);
    if st.stream.currentBatch != [] { FlattenAppend(st.stream.batchQueue, st.stream.currentBatch); }
    assert Flatten(queued.stream.batchQueue) == Flatten(st.stream.batchQueue) + st.stream.currentBatch by {
      if st.stream.currentBatch == [] { assert queued.stream.batchQueue == st.stream.batchQueue; }
    }
    var free := ProcessorFrees(env, st, queued, p);
    st' := QueueDrains(env, st, free);
  }

  // --- what is still to be relayed ---

  // The next event of a filter is a batch of its own when it comes first and nothing follows in time.
  lemma Alone(env: Env, from: State, st: State, s: SubId) returns (st': State)
    requires Draining(env, from, st, Waiting) && st.stream.batchQueue == []
    requires s in st.subs.sessions && s in env.source && st.subs.sessions[s].next < |env.source[s]|
    ensures Reaches(env, from, st') && StreamInv(env, st') && Accounted(st')
    ensures st' == Accept(env, st, env.source[s][st.subs.sessions[s].next],
                          st.subs.(sessions := Moved(st.subs.sessions, s)))
  {
    ReachableNext(env, from, Undisturbing(), st, Dispatcher(Receive(s)));
    StreamInvStep(env, st, Dispatcher(Receive(s)));
    st' := Step(env, st, Dispatcher(Receive(s))).value;
  }

  lemma AloneInBatch(stream: Stream, n: BatchSize, e: Event)
    requires stream.batchQueue == [] && stream.currentBatch == []
    ensures var taken := stream.Receive(n, e);
            && taken.suspended == stream.suspended && taken.stopped == stream.stopped
            && taken.dispatching == stream.dispatching
            && if taken.currentBatch == [] then taken.batchQueue == [[e]]
               else taken.currentBatch == [e] && taken.batchQueue == [] && taken.Timeout().batchQueue == [[e]]
  {
    assert [] + [e] == [e] && [] + [[e]] == [[e]];
  }

  lemma ThenQueued(env: Env, from: State, st: State, e: Event, taken: State) returns (st': State)
    requires Draining(env, from, st, Waiting) && st.stream.batchQueue == []
    requires Reaches(env, from, taken) && StreamInv(env, taken) && Accounted(taken)
    requires taken == Accept(env, st, e, taken.subs)
    ensures Draining(env, from, st', Waiting) && st'.stream.batchQueue == [[e]] && Carried(taken, st')
  {
    AloneInBatch(st.stream, env.batchSize, e);
    if taken.stream.currentBatch == [] {
      st' := taken;
    } else {
      st' := TimedOut(env, from, taken);
    }
  }

  lemma TimedOut(env: Env, from: State, st: State) returns (st': State)
    requires Reaches(env, from, st) && StreamInv(env, st) && Accounted(st)
    requires st.stream.currentBatch != [] && !st.stream.stopped
    ensures Reaches(env, from, st') && StreamInv(env, st') && Accounted(st')
    ensures st' == st.(stream := st.stream.Timeout())
  {
    ReachableNext(env, from, Undisturbing(), st, Dispatcher(Timeout));
    StreamInvStep(env, st, Dispatcher(Timeout));
    st' := Step(env, st, Dispatcher(Timeout)).value;
  }

  // A stream with nothing on its way takes in the next event of a filter and delivers it.
  lemma OneMore(env: Env, from: State, st: State, s: SubId) returns (st': State)
    requires Draining(env, from, st, Waiting) && st.stream.batchQueue == []
    requires s in st.subs.sessions && s in env.source && st.subs.sessions[s].next < |env.source[s]|
    ensures Draining(env, from, st', Waiting) && st'.stream.batchQueue == []
    ensures st'.subs.sessions == Moved(st.subs.sessions, s)
    ensures env.source[s][st.subs.sessions[s].next] in st'.record.completed
  {
    var e := env.source[s][st.subs.sessions[s].next];
    st' := Alone(env, from, st, s);
    st' := ThenQueued(env, from, st, e, st');
    assert Flatten([[e]]) == [e] + Flatten([]);
    st' := QueueDrains(env, from, st');
  }

  lemma RelayedUpTo(env: Env, from: State, st: State, s: SubId, i: nat) returns (st': State)
    requires Draining(env, from, st, Waiting) && st.stream.batchQueue == []
    requires s in st.subs.sessions && s in env.source && st.subs.sessions[s].next <= i < |env.source[s]|
    ensures Reaches(env, from, st') && env.source[s][i] in st'.record.completed
    decreases i - st.subs.sessions[s].next
  {
    st' := OneMore(env, from, st, s);
    if st.subs.sessions[s].next < i {
      st' := RelayedUpTo(env, from, st', s, i);
    }
  }

  ghost predicate CanDeliver(env: Env, st: State, e: Event) {
    exists st' :: Reaches(env, st, st') && e in st'.record.completed
  }

  // After any run, as long as the stream is neither suspended nor stopped: whatever has been taken in and not given up,
  // and whatever an open filter has yet to relay, is delivered by some run without a restart or a suspension.
  lemma DeliveryPossible(env: Env, actions: seq<Action>, st: State)
    requires Run(env, Initial(), actions) == Some(st) && !st.stream.suspended && !st.stream.stopped
    ensures forall e :: e in Pipeline(st) ==> CanDeliver(env, st, e)
    ensures forall s, i ::
              s in st.subs.sessions && s in env.source && st.subs.sessions[s].next <= i < |env.source[s]| ==>
                CanDeliver(env, st, env.source[s][i])
  {
    StreamInvRun(env, actions);
    MannedRun(env, actions);
    var drained := PipelineDrains(env, st);
    forall s, i | s in st.subs.sessions && s in env.source && st.subs.sessions[s].next <= i < |env.source[s]|
      ensures CanDeliver(env, st, env.source[s][i])
    {
      var st' := RelayedUpTo(env, st, drained, s, i);
    }
  }

  // --- what is handed over ---

  // As long as the stream is not stopped, blocked and suspended or not, a filter with something left hands over its
  // next event, and so does the relay of one that was unregistered.
  lemma RelaysNeverWait(env: Env, actions: seq<Action>, st: State, s: SubId)
    requires Run(env, Initial(), actions) == Some(st) && !st.stream.stopped && s in env.source
    ensures s in st.subs.sessions && st.subs.sessions[s].next < |env.source[s]| ==>
              var st' := Step(env, st, Dispatcher(Receive(s)));
              && st'.Some?
              && st'.value.history.accepted == st.history.accepted + [env.source[s][st.subs.sessions[s].next]]
    ensures forall k: nat ::
              k < |st.subs.lingering| && s in st.subs.lingering[k]
              && st.subs.lingering[k][s].next < |env.source[s]| ==>
                var st' := Step(env, st, Dispatcher(ReceiveLate(k, s)));
                && st'.Some?
                && st'.value.history.accepted == st.history.accepted + [env.source[s][st.subs.lingering[k][s].next]]
  {
    StreamInvRun(env, actions);
  }
}
