/** What suspension does to the stored checkpoint: a batch given up is passed by the next one's acknowledgement. */
module StreamSuspension {
  import opened Options
  import opened Ledger
  import opened StreamModel
  import opened StreamConservation
  import opened StreamOrigin
  import opened StreamHeights
  import opened StreamSafety
  import opened StreamReach

  // Suspensions, resumes, stops and crashes are free; no poll forgets a height.
  ghost predicate Comes(env: Env, st: State) { Reachable(env, Initial(), Mindfully(env), st) }

  lemma ComesNext(env: Env, st: State, a: Action)
    requires Comes(env, st) && Mindful(env, st, a) && Step(env, st, a).Some?
    ensures Comes(env, Step(env, st, a).value)
  {
    ReachableNext(env, Initial(), Mindfully(env), st, a);
  }

  // --- a ledger with two events ---

  ghost predicate Two(env: Env, s: SubId) { BlockOrdered(env.source) && s in env.source && |env.source[s]| >= 2 }

  // The filter was opened at the first block and relays event k next.
  predicate AtEvent(st: State, s: SubId, k: nat) { s in st.subs.sessions && st.subs.sessions[s] == Session(0, k) }

  // One subscription, from the first block on, whose height has not been stored.
  ghost predicate Scene(st: State, s: SubId, hwm: Marks, completed: set<Event>) {
    && !st.stream.stopped && st.stream.dispatching && st.subs.visible == {s} && st.subs.hwm == hwm
    && st.store == Store(map[s := Explicit(0)], map[]) && st.record == Record(completed, map[s := 0])
  }

  lemma SceneIsMindful(env: Env, st: State, s: SubId, hwm: Marks, completed: set<Event>, a: Action)
    requires Scene(st, s, hwm, completed)
    ensures Mindful(env, st, a)
  {
  }

  lemma Opened(env: Env, s: SubId) returns (st: State)
    requires Two(env, s)
    ensures Comes(env, st) && Scene(st, s, map[], {}) && st.stream == Started(false) && st.processors == [Waiting]
    ensures st.pollers == [Poller(Starting({}), {s}, Some(map[]))] && AtEvent(st, s, 0)
  {
    ReachableFirst(env, Initial(), Mindfully(env));
    var add := Subscription(Add(s, Explicit(0)));
    ComesNext(env, Initial(), add);
    st := Step(env, Initial(), add).value;
    assert st.subs.visible == {s} && st.record.floor == map[s := 0];
    ComesNext(env, st, Poll(0, BeginPoll(true)));
    st := Step(env, st, Poll(0, BeginPoll(true))).value;
    assert st.pollers == [Poller(Starting({s}), {s}, Some(map[]))];
    ComesNext(env, st, Poll(0, StartFilter(s, None, true)));
    st := Step(env, st, Poll(0, StartFilter(s, None, true))).value;
    assert {s} - {s} == {};
  }

  // The rest of the poll, whose store fails.
  lemma Polled(env: Env, s: SubId, before: State) returns (st: State)
    requires Comes(env, before) && Scene(before, s, map[], {})
    requires before.pollers == [Poller(Starting({}), {s}, Some(map[]))]
    ensures Comes(env, st) && Scene(st, s, map[], {}) && st.pollers == [Poller(Idle, {s}, Some(map[s := 0]))]
    ensures st.stream == before.stream && st.processors == before.processors && st.subs == before.subs
  {
    ComesNext(env, before, Poll(0, BeginCopy));
    st := Step(env, before, Poll(0, BeginCopy)).value;
    assert st.pollers == [Poller(Copying({s}, false), {s}, Some(map[]))];
    var cp: Marks := map[];
    assert {s} - {s} == {} && cp[s := 0] == map[s := 0];
    assert Turn(env, st, st.pollers[0], CopyMark(s)) == Some((Poller(Copying({}, true), {s}, Some(map[s := 0])), st));
    ComesNext(env, st, Poll(0, CopyMark(s)));
    st := Step(env, st, Poll(0, CopyMark(s))).value;
    ComesNext(env, st, Poll(0, EndPoll(false)));
    st := Step(env, st, Poll(0, EndPoll(false))).value;
  }

  // One more event is handed over and queued alone, whatever the batch size.
  lemma Queued(env: Env, s: SubId, k: nat, before: State) returns (st: State)
    requires Two(env, s) && Comes(env, before) && Scene(before, s, map[], {}) && k < 2
    requires AtEvent(before, s, k) && before.stream.currentBatch == [] && !before.stream.suspended
    ensures Comes(env, st) && Scene(st, s, map[], {}) && AtEvent(st, s, k + 1)
    ensures st.processors == before.processors && st.pollers == before.pollers && !st.stream.suspended
    ensures st.stream.currentBatch == []
    ensures st.stream.inFlight == before.stream.inFlight + 1
    ensures st.stream.batchQueue == before.stream.batchQueue + [[env.source[s][k]]]
  {
    var e := env.source[s][k];
    ComesNext(env, before, Dispatcher(Receive(s)));
    st := Step(env, before, Dispatcher(Receive(s))).value;
    assert before.stream.currentBatch + [e] == [e];
    assert AtEvent(st, s, k + 1);
    if env.batchSize > 1 {
      ComesNext(env, st, Dispatcher(Timeout));
      st := Step(env, st, Dispatcher(Timeout)).value;
    }
  }

  // The first batch is given up: the stream is suspended before it is delivered.
  lemma GivenUp(env: Env, s: SubId, e: Event, f: Event, before: State) returns (st: State)
    requires Comes(env, before) && Scene(before, s, map[], {}) && !before.stream.suspended
    requires before.processors == [Waiting] && before.stream.batchQueue == [[e], [f]]
    ensures Comes(env, st) && Scene(st, s, map[], {}) && st.processors == [Settled([e], false)]
    ensures st.pollers == before.pollers && st.stream.batchQueue == [[f]]
    ensures st.stream.inFlight == before.stream.inFlight
    ensures st.stream.suspended
  {
    ComesNext(env, before, Process(0, Take));
    st := Step(env, before, Process(0, Take)).value;
    assert st.processors == [Attempting([e])] && [[e], [f]][1..] == [[f]];
    ComesNext(env, st, Control(Suspend));
    st := Step(env, st, Control(Suspend)).value;
    ComesNext(env, st, Process(0, Interrupt));
    st := Step(env, st, Process(0, Interrupt)).value;
  }

  // Both goroutines leave.
  lemma Left(env: Env, s: SubId, e: Event, f: Event, before: State) returns (st: State)
    requires Comes(env, before) && Scene(before, s, map[], {}) && before.stream.suspended
    requires before.processors == [Settled([e], false)] && before.pollers == [Poller(Idle, {s}, Some(map[s := 0]))]
    requires before.stream.batchQueue == [[f]]
    ensures Comes(env, st) && Scene(st, s, map[], {}) && st.processors == [] && st.pollers == []
    ensures st.subs.sessions == map[]
    ensures st.stream.suspended && st.stream.processorDone && st.stream.pollerDone
    ensures st.stream.batchQueue == [[f]] && st.stream.inFlight == before.stream.inFlight
  {
    ComesNext(env, before, Process(0, Count));
    st := Step(env, before, Process(0, Count)).value;
    assert st.processors == [Counted([e], false)];
    ComesNext(env, st, Process(0, BeginAcks));
    st := Step(env, st, Process(0, BeginAcks)).value;
    assert st.processors == [Waiting];
    ComesNext(env, st, Process(0, ExitProcessor));
    st := Step(env, st, Process(0, ExitProcessor)).value;
    ComesNext(env, st, Poll(0, ExitPoller));
    st := Step(env, st, Poll(0, ExitPoller)).value;
  }

  // After the resume the second batch is taken, and delivered.
  lemma Resumed(env: Env, s: SubId, f: Event, before: State) returns (st: State)
    requires Comes(env, before) && Scene(before, s, map[], {}) && before.processors == [] && before.pollers == []
    requires before.subs.sessions == map[]
    requires before.stream.processorDone && before.stream.pollerDone && before.stream.batchQueue == [[f]]
    ensures Comes(env, st) && Scene(st, s, map[], {}) && st.processors == [Attempting([f])]
    ensures st.pollers == [NEW_POLLER]
    ensures !st.stream.suspended && st.stream.inFlight == before.stream.inFlight && st.subs.sessions == map[]
  {
    ComesNext(env, before, Control(Resume));
    st := Step(env, before, Control(Resume)).value;
    assert st.processors == [Waiting] && st.pollers == [NEW_POLLER];
    ComesNext(env, st, Process(0, Take));
    st := Step(env, st, Process(0, Take)).value;
  }

  lemma Delivered(env: Env, s: SubId, f: Event, before: State) returns (st: State)
    requires Comes(env, before) && Scene(before, s, map[], {}) && before.processors == [Attempting([f])]
    requires before.pollers == [NEW_POLLER]
    requires !before.stream.suspended && before.stream.inFlight == 2 && before.subs.sessions == map[]
    ensures Comes(env, st) && Scene(st, s, map[], {f}) && st.processors == [Counted([f], true)]
    ensures st.pollers == [NEW_POLLER]
    ensures !st.stream.suspended && st.stream.inFlight == 1 && st.subs.sessions == map[]
  {
    ComesNext(env, before, Process(0, Deliver));
    st := Step(env, before, Process(0, Deliver)).value;
    assert {} + (set x | x in [f]) == {f} && st.processors == [Settled([f], true)];
    ComesNext(env, st, Process(0, Count));
    st := Step(env, st, Process(0, Count)).value;
  }

  lemma Acknowledged(env: Env, s: SubId, f: Event, before: State) returns (st: State)
    requires Comes(env, before) && Scene(before, s, map[], {f}) && before.processors == [Counted([f], true)]
    requires before.pollers == [NEW_POLLER]
    requires !before.stream.suspended && before.stream.inFlight == 1 && before.subs.sessions == map[] && f.subId == s
    ensures Comes(env, st) && Scene(st, s, map[s := f.blockNumber + 1], {f}) && st.pollers == [NEW_POLLER]
    ensures !st.stream.suspended && st.stream.inFlight == 1 && st.subs.sessions == map[]
  {
    assert LastPerSub([f]) == map[s := f] by { assert [f][..0] == []; }
    assert Advance(env, before, Counted([f], true), BeginAcks) == Some((Acking(map[s := f]), before));
    ComesNext(env, before, Process(0, BeginAcks));
    st := Step(env, before, Process(0, BeginAcks)).value;
    assert Raise(map[], f) == map[s := f.blockNumber + 1];
    ComesNext(env, st, Process(0, Ack(s)));
    st := Step(env, st, Process(0, Ack(s))).value;
  }

  // The next poll, blocked or not, comes to copying the mark.
  lemma Copies(env: Env, s: SubId, mark: nat, completed: set<Event>, before: State) returns (st: State)
    requires Comes(env, before) && Scene(before, s, map[s := mark], completed) && before.pollers == [NEW_POLLER]
    requires !before.stream.suspended && before.subs.sessions == map[]
    ensures Comes(env, st) && Scene(st, s, map[s := mark], completed)
    ensures st.pollers == [Poller(Copying({s}, false), {s}, Some(map[]))]
  {
    SceneIsMindful(env, before, s, map[s := mark], completed, Poll(0, BeginPoll(true)));
    ComesNext(env, before, Poll(0, BeginPoll(true)));
    st := Step(env, before, Poll(0, BeginPoll(true))).value;
    if !before.stream.IsBlocked(env.batchSize) {
      assert st.pollers == [Poller(Starting({s}), {s}, Some(map[]))] && {s} - {s} == {};
      ComesNext(env, st, Poll(0, StartFilter(s, None, false)));
      st := Step(env, st, Poll(0, StartFilter(s, None, false))).value;
      ComesNext(env, st, Poll(0, BeginCopy));
      st := Step(env, st, Poll(0, BeginCopy)).value;
    }
  }

  lemma OneQueued(env: Env, s: SubId) returns (st: State)
    requires Two(env, s)
    ensures Comes(env, st) && Scene(st, s, map[], {}) && !st.stream.suspended && st.stream.inFlight == 1
    ensures st.stream.currentBatch == []
    ensures st.processors == [Waiting] && st.pollers == [Poller(Idle, {s}, Some(map[s := 0]))]
    ensures st.stream.batchQueue == [[env.source[s][0]]] && AtEvent(st, s, 1)
  {
    st := Opened(env, s);
    st := Polled(env, s, st);
    st := Queued(env, s, 0, st);
  }

  lemma BothQueued(env: Env, s: SubId) returns (st: State)
    requires Two(env, s)
    ensures Comes(env, st) && Scene(st, s, map[], {}) && !st.stream.suspended && st.stream.inFlight == 2
    ensures st.processors == [Waiting] && st.pollers == [Poller(Idle, {s}, Some(map[s := 0]))]
    ensures st.stream.batchQueue == [[env.source[s][0]], [env.source[s][1]]]
  {
    st := OneQueued(env, s);
    st := Queued(env, s, 1, st);
  }

  lemma Abandoned(env: Env, s: SubId) returns (st: State)
    requires Two(env, s)
    ensures Comes(env, st) && Scene(st, s, map[], {}) && st.processors == [] && st.pollers == []
    ensures st.subs.sessions == map[]
    ensures st.stream.processorDone && st.stream.pollerDone && st.stream.batchQueue == [[env.source[s][1]]]
    ensures st.stream.inFlight == 2
  {
    st := BothQueued(env, s);
    st := GivenUp(env, s, env.source[s][0], env.source[s][1], st);
    st := Left(env, s, env.source[s][0], env.source[s][1], st);
  }

  // The height after the second event is stored while the first, given up on suspension, was never delivered.
  lemma SuspensionLoses(env: Env, s: SubId) returns (st: State)
    requires Two(env, s)
    ensures Comes(env, st) && !CheckpointSafe(env, st)
  {
    var f := env.source[s][1];
    st := Abandoned(env, s);
    st := Resumed(env, s, f, st);
    st := Delivered(env, s, f, st);
    st := Acknowledged(env, s, f, st);
    st := Copies(env, s, f.blockNumber + 1, {f}, st);
    st := MarkStored(env, Initial(), Mindfully(env), s, f.blockNumber + 1, st);
    assert env.source[s][0] !in st.record.completed;
    assert !Covered(env, st.record, s, At(st.store.checkpoint, s));
  }

  // --- a ledger with one ---

  ghost predicate OneEach(src: Source) { forall s :: s in src ==> |src[s]| <= 1 }

  lemma LonelyIsTruthful(env: Env, st: State, a: Action)
    requires OneEach(env.source) && HeightInv(env, st)
    ensures Truthful(env, st, a)
  {
    if IsAck(st, a) { AckOrigin(env, Marked(st), st, a.w, a.p.sub); }
  }

  lemma LonelyIsSafe(env: Env, actions: seq<Action>)
    requires BlockOrdered(env.source) && OneEach(env.source) && MindfulRun(env, actions)
    requires Run(env, Initial(), actions).Some?
    ensures CheckpointSafe(env, Run(env, Initial(), actions).value)
  {
    forall i | 0 <= i < |actions| && Run(env, Initial(), actions[..i]).Some?
      ensures Truthfully(env)(Run(env, Initial(), actions[..i]).value, actions[i])
    {
      MeetsPrefix(env, Initial(), Mindfully(env), actions, i);
      HeightRun(env, actions[..i]);
      LonelyIsTruthful(env, Run(env, Initial(), actions[..i]).value, actions[i]);
    }
    CheckpointSafeRun(env, actions);
  }

  // With suspensions allowed, for any batch size: the stored checkpoint is always safe to restart from exactly when
  // the ledger gives no subscription a second event.
  lemma SuspensionSafeExactly(env: Env)
    requires BlockOrdered(env.source)
    ensures (forall st :: Comes(env, st) ==> CheckpointSafe(env, st)) <==> OneEach(env.source)
  {
    if OneEach(env.source) {
      forall st | Comes(env, st) ensures CheckpointSafe(env, st) {
        var actions :| Leads(env, Initial(), Mindfully(env), actions, st);
        LonelyIsSafe(env, actions);
      }
    } else {
      var s :| s in env.source && |env.source[s]| > 1;
      var st := SuspensionLoses(env, s);
    }
  }
}
