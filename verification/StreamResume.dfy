/** What a resumed stream can still do: exactly when the events abandoned on suspension keep it blocked until
    the process restarts. */
module StreamResume {
  import opened Options
  import opened Ledger
  import opened StreamModel
  import opened StreamConservation
  import opened StreamReach

  // Neither a restart nor a new suspension.
  predicate Undisturbed(a: Action) { a.Control? ==> a.c.Resume? }

  function Undisturbing(): (State, Action) -> bool { (st: State, a: Action) => Undisturbed(a) }

  ghost predicate Reaches(env: Env, st: State, st': State) { Reachable(env, st, Undisturbing(), st') }

  // Some run from `st` comes to a poll that may open filters.
  ghost predicate PollsAgain(env: Env, st: State) {
    exists st' :: Reaches(env, st, st') && exists w :: 0 <= w < |st'.pollers| && st'.pollers[w].phase.Starting?
  }

  // --- with a batch's worth of abandoned events ---

  ghost predicate Wedged(env: Env, st: State) {
    && |st.history.abandoned| >= env.batchSize
    && st.subs.sessions == map[]
    && forall w :: 0 <= w < |st.pollers| ==> !st.pollers[w].phase.Starting?
  }

  lemma WedgedStep(env: Env, st: State, a: Action)
    requires StreamInv(env, st) && Wedged(env, st) && Step(env, st, a).Some?
    requires !(a.Control? && a.c.Crash?)
    ensures Wedged(env, Step(env, st, a).value)
  {
    if a.Poll? && a.l.BeginPoll? {
      assert st.stream.IsBlocked(env.batchSize);
    }
  }

  // No later action short of a restart opens a filter, suspensions and resumes included; all that can still
  // come in is what the relays of unregistered filters held.
  lemma {:induction false} WedgedForever(env: Env, st: State, actions: seq<Action>)
    requires StreamInv(env, st) && Accounted(st) && Wedged(env, st) && Run(env, st, actions).Some?
    requires forall i :: 0 <= i < |actions| ==> !(actions[i].Control? && actions[i].c.Crash?)
    ensures StreamInv(env, Run(env, st, actions).value) && Accounted(Run(env, st, actions).value)
    ensures Wedged(env, Run(env, st, actions).value) && Run(env, st, actions).value.stream.IsBlocked(env.batchSize)
  {
    if actions == [] {
    } else {
      var n := |actions| - 1;
      WedgedForever(env, st, actions[..n]);
      WedgedStep(env, Run(env, st, actions[..n]).value, actions[n]);
      StreamInvStep(env, Run(env, st, actions[..n]).value, actions[n]);
    }
  }

  // --- with fewer: the queue drains ---

  // `st` is on the way, with `p` at work and the poller where it was.
  ghost predicate Draining(env: Env, from: State, st: State, p: Processor) {
    && Reaches(env, from, st) && StreamInv(env, st) && Accounted(st)
    && st.processors == [p] && st.pollers == from.pollers && st.history.abandoned == from.history.abandoned
    && !st.stream.suspended && !st.stream.stopped && st.stream.currentBatch == []
  }

  lemma AdvanceFrame(env: Env, st: State, p: Processor, a: ProcessorAction)
    requires !st.stream.suspended && !st.stream.stopped && Advance(env, st, p, a).Some?
    ensures var st' := Advance(env, st, p, a).value.1;
            && st'.pollers == st.pollers && st'.history.abandoned == st.history.abandoned
            && !st'.stream.suspended && !st'.stream.stopped && st'.stream.currentBatch == st.stream.currentBatch
            && st'.stream.batchQueue == (if a == Take then st.stream.batchQueue[1..] else st.stream.batchQueue)
            && Carried(st, st')
  {
  }

  // The filters are where they were, and what was delivered still is.
  ghost predicate Carried(st: State, st': State) {
    st'.subs.sessions == st.subs.sessions && st.record.completed <= st'.record.completed
  }

  lemma DrainStep(env: Env, from: State, st: State, p: Processor, a: ProcessorAction,
                  p': Processor) returns (st': State)
    requires Draining(env, from, st, p) && !a.ExitProcessor?
    requires Advance(env, st, p, a).Some? && Advance(env, st, p, a).value.0 == p'
    ensures Draining(env, from, st', p')
    ensures st'.stream.batchQueue == if a == Take then st.stream.batchQueue[1..] else st.stream.batchQueue
    ensures Carried(st, st') && st'.record == Advance(env, st, p, a).value.1.record
  {
    var act := Process(0, a);
    AdvanceFrame(env, st, p, a);
    assert st.processors[0 := p'] == [p'];
    assert Step(env, st, act) == Some(Advance(env, st, p, a).value.1.(processors := [p']));
    ReachableNext(env, from, Undisturbing(), st, act);
    StreamInvStep(env, st, act);
    st' := Step(env, st, act).value;
  }

  lemma AcksDrain(env: Env, from: State, st: State, calls: map<SubId, Event>) returns (st': State)
    requires Draining(env, from, st, Acking(calls))
    ensures Draining(env, from, st', Waiting) && st'.stream.batchQueue == st.stream.batchQueue && Carried(st, st')
    decreases |calls|
  {
    if calls == map[] {
      st' := DrainStep(env, from, st, Acking(calls), EndAcks, Waiting);
    } else {
      var s :| s in calls;
      st' := DrainStep(env, from, st, Acking(calls), Ack(s), Acking(calls - {s}));
      assert (calls - {s}).Keys == calls.Keys - {s};
      st' := AcksDrain(env, from, st', calls - {s});
    }
  }

  lemma BatchDelivered(env: Env, from: State, st: State) returns (st': State)
    requires Draining(env, from, st, Waiting) && st.stream.batchQueue != []
    ensures Draining(env, from, st', Settled(st.stream.batchQueue[0], true))
    ensures st'.stream.batchQueue == st.stream.batchQueue[1..] && Carried(st, st')
    ensures forall e :: e in st.stream.batchQueue[0] ==> e in st'.record.completed
  {
    var b := st.stream.batchQueue[0];
    st' := DrainStep(env, from, st, Waiting, Take, Attempting(b));
    st' := DrainStep(env, from, st', Attempting(b), Deliver, Settled(b, true));
  }

  lemma BatchDrains(env: Env, from: State, st: State, b: seq<Event>, processed: bool) returns (st': State)
    requires Draining(env, from, st, Settled(b, processed))
    ensures Draining(env, from, st', Waiting) && st'.stream.batchQueue == st.stream.batchQueue && Carried(st, st')
  {
    st' := DrainStep(env, from, st, Settled(b, processed), Count, Counted(b, processed));
    st' := DrainStep(env, from, st', Counted(b, processed), BeginAcks, Acking(LastPerSub(b)));
    st' := AcksDrain(env, from, st', LastPerSub(b));
  }

  lemma {:induction false} QueueDrains(env: Env, from: State, st: State) returns (st': State)
    requires Draining(env, from, st, Waiting)
    ensures Draining(env, from, st', Waiting) && st'.stream.batchQueue == [] && Carried(st, st')
    ensures forall e :: e in Flatten(st.stream.batchQueue) ==> e in st'.record.completed
    decreases |st.stream.batchQueue|
  {
    if st.stream.batchQueue == [] {
      st' := st;
    } else {
      st' := BatchDelivered(env, from, st);
      st' := BatchDrains(env, from, st', st.stream.batchQueue[0], true);
      st' := QueueDrains(env, from, st');
    }
  }

  // The dispatcher's own batch is queued first, when its time is up.
  lemma CurrentQueued(env: Env, st: State, p: Processor) returns (st': State)
    requires StreamInv(env, st) && Accounted(st) && st.processors == [p]
    requires !st.stream.suspended && !st.stream.stopped
    ensures Draining(env, st, st', p) && Carried(st, st')
    ensures st'.stream.batchQueue ==
            st.stream.batchQueue + if st.stream.currentBatch == [] then [] else [st.stream.currentBatch]
  {
    ReachableFirst(env, st, Undisturbing());
    st' := st;
    if st.stream.currentBatch != [] {
      ReachableNext(env, st, Undisturbing(), st, Dispatcher(Timeout));
      StreamInvStep(env, st, Dispatcher(Timeout));
      st' := Step(env, st, Dispatcher(Timeout)).value;
    }
  }

  lemma Unblocks(env: Env, st: State)
    requires StreamInv(env, st) && Accounted(st) && st.processors == [Waiting] && st.pollers == [NEW_POLLER]
    requires !st.stream.suspended && !st.stream.stopped && |st.history.abandoned| < env.batchSize
    ensures PollsAgain(env, st)
  {
    var st' := CurrentQueued(env, st, Waiting);
    st' := QueueDrains(env, st, st');
    assert st'.stream.inFlight == |st.history.abandoned|;
    ReachableNext(env, st, Undisturbing(), st', Poll(0, BeginPoll(true)));
    assert Step(env, st', Poll(0, BeginPoll(true))).value.pollers[0].phase.Starting?;
  }

  lemma {:induction false} AllUndisturbed(env: Env, st: State, actions: seq<Action>, st': State)
    requires Leads(env, st, Undisturbing(), actions, st')
    ensures forall i :: 0 <= i < |actions| ==> Undisturbed(actions[i])
  {
    forall i | 0 <= i < |actions| ensures Undisturbed(actions[i]) { PrefixRuns(env, st, actions, i); }
  }

  // After a granted resume some run polls for events again if and only if the events abandoned on suspension
  // do not fill a batch.
  lemma ResumeRecoversExactly(env: Env, actions: seq<Action>)
    requires Run(env, Initial(), actions).Some?
    requires var st := Run(env, Initial(), actions).value; st.processors == [] && st.pollers == [] && !st.stream.stopped
    ensures var st := Run(env, Initial(), actions).value;
            PollsAgain(env, ControlStep(st, Resume).value) <==> |st.history.abandoned| < env.batchSize
  {
    var st := Run(env, Initial(), actions).value;
    var resumed := ControlStep(st, Resume).value;
    StreamInvRun(env, actions);
    StreamInvStep(env, st, Control(Resume));
    if |st.history.abandoned| < env.batchSize {
      Unblocks(env, resumed);
    } else {
      forall st' | Reaches(env, resumed, st')
        ensures forall w :: 0 <= w < |st'.pollers| ==> !st'.pollers[w].phase.Starting?
      {
        var more :| Leads(env, resumed, Undisturbing(), more, st');
        AllUndisturbed(env, resumed, more, st');
        WedgedForever(env, resumed, more);
      }
    }
  }
}
