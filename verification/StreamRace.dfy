/** A run that shows why recovery must be over before the poller looks. The process restarts, and the poller
    runs while one of two subscriptions has been recovered. */
module StreamRace {
  import opened Options
  import opened Ledger
  import opened StreamModel
  import opened StreamConservation
  import opened StreamDelivery
  import opened StreamReach

  // Nobody suspends or stops the stream.
  function Freely(): (State, Action) -> bool { (st: State, a: Action) => Uninterrupted(a) }

  // `a` has a batch's worth of events to keep the stream blocked with, `b` one event to lose.
  ghost predicate Scene(env: Env, a: SubId, b: SubId) {
    && BlockOrdered(env.source) && a != b
    && a in env.source && |env.source[a]| >= env.batchSize
    && b in env.source && env.source[b] != [] && env.source[b][0].blockNumber > 0
  }

  // The block of the event that gets lost.
  function LostBlock(env: Env, b: SubId): nat
    requires b in env.source && env.source[b] != []
  {
    env.source[b][0].blockNumber
  }

  function Batch(env: Env, a: SubId): seq<Event>
    requires a in env.source && |env.source[a]| >= env.batchSize
  {
    env.source[a][..env.batchSize]
  }

  function Members(b: seq<Event>): set<Event> { set e | e in b }

  function Registered(a: SubId, b: SubId): map<SubId, FromBlock> { map[b := Newest][a := Explicit(0)] }

  function Claims(a: SubId, b: SubId, n: nat): map<SubId, nat> { map[b := n][a := 0] }

  // --- before the crash: `b` starts at the newest block and its height is stored ---

  lemma Opened(env: Env, a: SubId, b: SubId) returns (st: State)
    requires Scene(env, a, b)
    ensures Reachable(env, Initial(), Freely(), st) && st.pollers == [Poller(Starting({}), {b}, Some(map[]))]
    ensures st.subs.hwm == map[b := LostBlock(env, b)]
    ensures st.store == Store(map[b := Newest], map[]) && st.record == Record({}, map[])
  {
    var n := LostBlock(env, b);
    ReachableFirst(env, Initial(), Freely());
    var add := Subscription(Add(b, Newest));
    ReachableNext(env, Initial(), Freely(), Initial(), add);
    st := Step(env, Initial(), add).value;
    assert st.subs.visible == {b};
    ReachableNext(env, Initial(), Freely(), st, Poll(0, BeginPoll(true)));
    st := Step(env, st, Poll(0, BeginPoll(true))).value;
    assert st.pollers == [Poller(Starting({b}), {b}, Some(map[]))];
    ReachableNext(env, Initial(), Freely(), st, Poll(0, StartFilter(b, Some(n), true)));
    st := Step(env, st, Poll(0, StartFilter(b, Some(n), true))).value;
    assert {b} - {b} == {};
  }

  lemma HeightCopied(env: Env, b: SubId, n: nat, was: State) returns (st: State)
    requires Reachable(env, Initial(), Freely(), was) && was.pollers == [Poller(Starting({}), {b}, Some(map[]))]
    requires was.subs.hwm == map[b := n]
    ensures Reachable(env, Initial(), Freely(), st) && st.pollers == [Poller(Copying({}, true), {b}, Some(map[b := n]))]
    ensures st.store == was.store && st.record == was.record
  {
    ReachableNext(env, Initial(), Freely(), was, Poll(0, BeginCopy));
    st := Step(env, was, Poll(0, BeginCopy)).value;
    assert st.pollers == [Poller(Copying({b}, false), {b}, Some(map[]))];
    var cp: Marks := map[];
    assert {b} - {b} == {} && cp[b := n] == map[b := n];
    assert Turn(env, st, st.pollers[0], CopyMark(b)) == Some((Poller(Copying({}, true), {b}, Some(map[b := n])), st));
    ReachableNext(env, Initial(), Freely(), st, Poll(0, CopyMark(b)));
    st := Step(env, st, Poll(0, CopyMark(b))).value;
  }

  lemma HeightStored(env: Env, a: SubId, b: SubId, was: State) returns (st: State)
    requires Scene(env, a, b) && Reachable(env, Initial(), Freely(), was)
    requires was.pollers == [Poller(Starting({}), {b}, Some(map[]))]
    requires was.subs.hwm == map[b := LostBlock(env, b)]
    requires was.store == Store(map[b := Newest], map[]) && was.record == Record({}, map[])
    ensures Reachable(env, Initial(), Freely(), st)
    ensures st.store == Store(map[b := Newest], map[b := LostBlock(env, b)])
    ensures st.record == Record({}, map[b := LostBlock(env, b)])
  {
    st := HeightCopied(env, b, LostBlock(env, b), was);
    ReachableNext(env, Initial(), Freely(), st, Poll(0, EndPoll(true)));
    st := Step(env, st, Poll(0, EndPoll(true))).value;
    assert st.record.floor == map[b := LostBlock(env, b)];
  }

  // --- the restart ---

  function Restarted(a: SubId, b: SubId, n: nat): State {
    Boot(false, Store(Registered(a, b), map[b := n]), Record({}, Claims(a, b, n)))
  }

  lemma Crashed(env: Env, a: SubId, b: SubId, was: State)
    requires Scene(env, a, b) && Reachable(env, Initial(), Freely(), was)
    requires was.store == Store(map[b := Newest], map[b := LostBlock(env, b)])
    requires was.record == Record({}, map[b := LostBlock(env, b)])
    ensures Reachable(env, Initial(), Freely(), Restarted(a, b, LostBlock(env, b)))
  {
    var add := Subscription(Add(a, Explicit(0)));
    ReachableNext(env, Initial(), Freely(), was, add);
    var st := Step(env, was, add).value;
    ReachableNext(env, Initial(), Freely(), st, Control(Crash(false)));
  }

  ghost predicate Common(st: State, a: SubId, b: SubId, n: nat, completed: set<Event>) {
    && !st.stream.suspended && !st.stream.stopped && st.stream.dispatching
    && st.store.registry == Registered(a, b) && st.record == Record(completed, Claims(a, b, n))
    && st.subs.hwm == map[] && a in st.subs.sessions && b !in st.subs.sessions
  }

  lemma OnlyA(env: Env, a: SubId, b: SubId) returns (st: State)
    requires Scene(env, a, b) && Reachable(env, Initial(), Freely(), Restarted(a, b, LostBlock(env, b)))
    ensures Reachable(env, Initial(), Freely(), st) && Common(st, a, b, LostBlock(env, b), {})
    ensures st.stream == Started(false) && st.processors == [Waiting] && st.subs.visible == {a}
    ensures st.pollers == [Poller(Starting({}), {a}, Some(map[b := LostBlock(env, b)]))]
    ensures st.store.checkpoint == map[b := LostBlock(env, b)] && st.subs.sessions[a].next == 0
  {
    var n := LostBlock(env, b);
    var boot := Restarted(a, b, n);
    ReachableNext(env, Initial(), Freely(), boot, Subscription(Recover(a)));
    st := Step(env, boot, Subscription(Recover(a))).value;
    assert st.subs.visible == {a};
    ReachableNext(env, Initial(), Freely(), st, Poll(0, BeginPoll(true)));
    st := Step(env, st, Poll(0, BeginPoll(true))).value;
    assert st.pollers == [Poller(Starting({a}), {a}, Some(map[b := n]))];
    ReachableNext(env, Initial(), Freely(), st, Poll(0, StartFilter(a, None, true)));
    st := Step(env, st, Poll(0, StartFilter(a, None, true))).value;
    assert {a} - {a} == {};
  }

  // The first k of them have come in.
  ghost predicate Filling(env: Env, st: State, a: SubId, b: SubId, k: nat)
    requires Scene(env, a, b) && k <= env.batchSize
  {
    var n := LostBlock(env, b);
    && Common(st, a, b, n, {}) && st.processors == [Waiting] && st.subs.visible == {a}
    && st.subs.sessions[a].next == k && st.stream.inFlight == k
    && st.pollers == [Poller(Starting({}), {a}, Some(map[b := n]))] && st.store.checkpoint == map[b := n]
    && (if k < env.batchSize then st.stream.currentBatch == env.source[a][..k] && st.stream.batchQueue == []
        else st.stream.currentBatch == [] && st.stream.batchQueue == [Batch(env, a)])
  }

  lemma OneMore(env: Env, a: SubId, b: SubId, was: State, k: nat) returns (st: State)
    requires Scene(env, a, b) && k < env.batchSize && Reachable(env, Initial(), Freely(), was)
    requires Filling(env, was, a, b, k)
    ensures Reachable(env, Initial(), Freely(), st) && Filling(env, st, a, b, k + 1)
  {
    ReachableNext(env, Initial(), Freely(), was, Dispatcher(Receive(a)));
    st := Step(env, was, Dispatcher(Receive(a))).value;
    assert env.source[a][..k] + [env.source[a][k]] == env.source[a][..k + 1];
    assert k + 1 == env.batchSize ==> st.stream.batchQueue == [] + [env.source[a][..k + 1]];
  }

  lemma {:induction false} Filled(env: Env, a: SubId, b: SubId, was: State, k: nat) returns (st: State)
    requires Scene(env, a, b) && k <= env.batchSize && Reachable(env, Initial(), Freely(), was)
    requires Filling(env, was, a, b, k)
    ensures Reachable(env, Initial(), Freely(), st) && Filling(env, st, a, b, env.batchSize)
    decreases env.batchSize - k
  {
    if k == env.batchSize {
      st := was;
    } else {
      st := OneMore(env, a, b, was, k);
      st := Filled(env, a, b, st, k + 1);
    }
  }

  lemma Blocked(env: Env, a: SubId, b: SubId, was: State) returns (st: State)
    requires Scene(env, a, b) && Reachable(env, Initial(), Freely(), was) && Filling(env, was, a, b, env.batchSize)
    ensures Reachable(env, Initial(), Freely(), st) && Queued(env, st, a, b, LostBlock(env, b))
    ensures st.pollers == was.pollers && st.store == was.store
  {
    ReachableNext(env, Initial(), Freely(), was, Subscription(Recover(b)));
    st := Step(env, was, Subscription(Recover(b))).value;
    assert {a} + {b} == {a, b};
  }

  // --- the poller's next rounds ---

  // `a`'s batch is queued and blocks the stream.
  ghost predicate Queued(env: Env, st: State, a: SubId, b: SubId, n: nat)
    requires a in env.source && |env.source[a]| >= env.batchSize
  {
    && Common(st, a, b, n, {}) && st.stream.batchQueue == [Batch(env, a)] && st.stream.inFlight == env.batchSize
    && st.stream.currentBatch == [] && st.processors == [Waiting] && st.subs.visible == {a, b}
  }

  lemma SameClaims(a: SubId, b: SubId, n: nat, cp: Marks)
    requires a != b && cp.Keys == {a, b}
    ensures Floors(Claims(a, b, n), cp) == Claims(a, b, n)
  {
  }

  lemma RoundCopies(env: Env, a: SubId, b: SubId, was: State) returns (st: State)
    requires Scene(env, a, b) && Reachable(env, Initial(), Freely(), was)
    requires var n := LostBlock(env, b);
             && Queued(env, was, a, b, n) && was.store.checkpoint == map[b := n]
             && was.pollers == [Poller(Starting({}), {a}, Some(map[b := n]))]
    ensures Reachable(env, Initial(), Freely(), st)
    ensures var n := LostBlock(env, b);
            && Queued(env, st, a, b, n) && st.store.checkpoint == map[b := n]
            && st.pollers == [Poller(Copying({}, true), {a}, Some(map[b := n][a := 0]))]
  {
    var cp: Marks := map[b := LostBlock(env, b)];
    ReachableNext(env, Initial(), Freely(), was, Poll(0, BeginCopy));
    st := Step(env, was, Poll(0, BeginCopy)).value;
    assert st.pollers == [Poller(Copying({a}, false), {a}, Some(cp))] && {a} - {a} == {};
    assert Turn(env, st, st.pollers[0], CopyMark(a)) == Some((Poller(Copying({}, true), {a}, Some(cp[a := 0])), st));
    ReachableNext(env, Initial(), Freely(), st, Poll(0, CopyMark(a)));
    st := Step(env, st, Poll(0, CopyMark(a))).value;
  }

  lemma RoundEnds(env: Env, a: SubId, b: SubId, was: State) returns (st: State)
    requires Scene(env, a, b) && Reachable(env, Initial(), Freely(), was)
    requires var n := LostBlock(env, b);
             Queued(env, was, a, b, n) && was.pollers == [Poller(Copying({}, true), {a}, Some(map[b := n][a := 0]))]
    ensures Reachable(env, Initial(), Freely(), st)
    ensures var n := LostBlock(env, b);
            Queued(env, st, a, b, n) && st.pollers == [Poller(Idle, {a}, Some(map[b := n][a := 0]))]
  {
    var cp: Marks := map[b := LostBlock(env, b)][a := 0];
    SameClaims(a, b, LostBlock(env, b), cp);
    assert Turn(env, was, was.pollers[0], EndPoll(true)) ==
           Some((Poller(Idle, {a}, Some(cp)), was.(store := was.store.(checkpoint := cp))));
    ReachableNext(env, Initial(), Freely(), was, Poll(0, EndPoll(true)));
    st := Step(env, was, Poll(0, EndPoll(true))).value;
  }

  lemma BlockedRound(env: Env, a: SubId, b: SubId, was: State) returns (st: State)
    requires Scene(env, a, b) && Reachable(env, Initial(), Freely(), was)
    requires var n := LostBlock(env, b);
             Queued(env, was, a, b, n) && was.pollers == [Poller(Idle, {a}, Some(map[b := n][a := 0]))]
    ensures Reachable(env, Initial(), Freely(), st)
    ensures var n := LostBlock(env, b);
            Queued(env, st, a, b, n) && st.pollers == [Poller(Copying({b}, true), {a, b}, Some(map[b := n][a := 0]))]
  {
    var n := LostBlock(env, b);
    var cp := map[b := n][a := 0];
    assert b in cp;
    ReachableNext(env, Initial(), Freely(), was, Poll(0, BeginPoll(true)));
    st := Step(env, was, Poll(0, BeginPoll(true))).value;
    assert st.pollers == [Poller(Copying({a, b}, false), {a, b}, Some(cp))];
    ReachableNext(env, Initial(), Freely(), st, Poll(0, CopyMark(a)));
    st := Step(env, st, Poll(0, CopyMark(a))).value;
    assert {a, b} - {a} == {b} && cp[a := 0] == cp;
  }

  lemma CopiedUnset(env: Env, a: SubId, b: SubId, was: State) returns (st: State)
    requires Scene(env, a, b) && Reachable(env, Initial(), Freely(), was)
    requires var n := LostBlock(env, b);
             Queued(env, was, a, b, n) && was.pollers == [Poller(Copying({b}, true), {a, b}, Some(map[b := n][a := 0]))]
    ensures Reachable(env, Initial(), Freely(), st) && Queued(env, st, a, b, LostBlock(env, b))
    ensures st.pollers == [Poller(Copying({}, true), {a, b}, Some(map[b := 0][a := 0]))]
  {
    var n := LostBlock(env, b);
    var cp: Marks := map[b := n][a := 0];
    assert cp[b := 0] == map[b := 0][a := 0] && {b} - {b} == {};
    assert Turn(env, was, was.pollers[0], CopyMark(b)) ==
        Some((Poller(Copying({}, true), {a, b}, Some(cp[b := 0])), was));
    ReachableNext(env, Initial(), Freely(), was, Poll(0, CopyMark(b)));
    st := Step(env, was, Poll(0, CopyMark(b))).value;
  }

  lemma Forgotten(env: Env, a: SubId, b: SubId, was: State) returns (st: State)
    requires Scene(env, a, b) && Reachable(env, Initial(), Freely(), was) && Queued(env, was, a, b, LostBlock(env, b))
    requires was.pollers == [Poller(Copying({}, true), {a, b}, Some(map[b := 0][a := 0]))]
    ensures Reachable(env, Initial(), Freely(), st) && Queued(env, st, a, b, LostBlock(env, b))
    ensures At(st.store.checkpoint, b) == 0
    ensures st.pollers == [Poller(Idle, {a, b}, Some(map[b := 0][a := 0]))]
  {
    var cp: Marks := map[b := 0][a := 0];
    SameClaims(a, b, LostBlock(env, b), cp);
    assert Turn(env, was, was.pollers[0], EndPoll(true)) ==
           Some((Poller(Idle, {a, b}, Some(cp)), was.(store := was.store.(checkpoint := cp))));
    ReachableNext(env, Initial(), Freely(), was, Poll(0, EndPoll(true)));
    st := Step(env, was, Poll(0, EndPoll(true))).value;
  }

  // --- the event in the way is delivered, and `b` starts afresh one block too late ---

  lemma Delivered(env: Env, a: SubId, b: SubId, was: State) returns (st: State)
    requires Scene(env, a, b) && Reachable(env, Initial(), Freely(), was) && Queued(env, was, a, b, LostBlock(env, b))
    ensures Reachable(env, Initial(), Freely(), st) && Common(st, a, b, LostBlock(env, b), Members(Batch(env, a)))
    ensures st.processors == [Settled(Batch(env, a), true)] && st.stream.batchQueue == []
    ensures st.stream.currentBatch == []
    ensures st.stream.inFlight == env.batchSize && st.pollers == was.pollers && st.subs == was.subs
  {
    var batch := Batch(env, a);
    ReachableNext(env, Initial(), Freely(), was, Process(0, Take));
    st := Step(env, was, Process(0, Take)).value;
    assert st.processors == [Attempting(batch)];
    ReachableNext(env, Initial(), Freely(), st, Process(0, Deliver));
    st := Step(env, st, Process(0, Deliver)).value;
    assert {} + Members(batch) == Members(batch);
  }

  // The processor takes its batch off the count, so the next poll is not blocked.
  lemma Unblocked(env: Env, a: SubId, b: SubId, was: State) returns (st: State)
    requires Scene(env, a, b) && Reachable(env, Initial(), Freely(), was)
    requires Common(was, a, b, LostBlock(env, b), Members(Batch(env, a))) && was.stream.inFlight == env.batchSize
    requires was.processors == [Settled(Batch(env, a), true)] && was.stream.batchQueue == []
    requires was.stream.currentBatch == []
    ensures Reachable(env, Initial(), Freely(), st)
    ensures st == was.(stream := was.stream.(inFlight := 0), processors := st.processors)
    ensures Pipeline(st) == []
  {
    ReachableNext(env, Initial(), Freely(), was, Process(0, Count));
    st := Step(env, was, Process(0, Count)).value;
  }

  lemma PollsAgain(env: Env, was: State, cp: Marks) returns (st: State)
    requires Reachable(env, Initial(), Freely(), was) && !was.stream.SuspendOrStop() && cp != map[]
    requires was.pollers == [Poller(Idle, was.subs.visible, Some(cp))] && was.stream.inFlight == 0 < env.batchSize
    ensures Reachable(env, Initial(), Freely(), st)
    ensures st == was.(pollers := [Poller(Starting(was.subs.visible), was.subs.visible, Some(cp))])
  {
    ReachableNext(env, Initial(), Freely(), was, Poll(0, BeginPoll(true)));
    st := Step(env, was, Poll(0, BeginPoll(true))).value;
    assert st.pollers == [Poller(Starting(was.subs.visible), was.subs.visible, Some(cp))];
  }

  lemma Reopened(env: Env, a: SubId, b: SubId, was: State) returns (st: State)
    requires Scene(env, a, b) && Reachable(env, Initial(), Freely(), was) && Pipeline(was) == []
    requires Common(was, a, b, LostBlock(env, b), Members(Batch(env, a)))
    requires was.pollers == [Poller(Starting({a, b}), {a, b}, Some(map[b := 0][a := 0]))]
    ensures Reachable(env, Initial(), Freely(), st) && st.record == was.record && Pipeline(st) == []
    ensures b in st.subs.sessions && st.subs.sessions[b] == Open(env, b, LostBlock(env, b) + 1)
  {
    var h := LostBlock(env, b) + 1;
    var cp: Marks := map[b := 0][a := 0];
    assert b in cp;
    ReachableNext(env, Initial(), Freely(), was, Poll(0, StartFilter(b, Some(h), true)));
    st := Step(env, was, Poll(0, StartFilter(b, Some(h), true))).value;
  }

  // An event whose block was covered by a stored height is delivered by nobody: neither done, nor on its
  // way, nor still to be relayed.
  lemma RecoveryRaceLoses(env: Env, a: SubId, b: SubId) returns (st: State)
    requires Scene(env, a, b)
    ensures Reachable(env, Initial(), Freely(), st) && !NothingLost(env, st)
  {
    st := Opened(env, a, b);
    st := HeightStored(env, a, b, st);
    Crashed(env, a, b, st);
    st := OnlyA(env, a, b);
    st := Filled(env, a, b, st, 0);
    st := Blocked(env, a, b, st);
    st := RoundCopies(env, a, b, st);
    st := RoundEnds(env, a, b, st);
    st := BlockedRound(env, a, b, st);
    st := CopiedUnset(env, a, b, st);
    st := Forgotten(env, a, b, st);
    st := Delivered(env, a, b, st);
    st := Unblocked(env, a, b, st);
    var cp: Marks := map[b := 0][a := 0];
    assert b in cp;
    st := PollsAgain(env, st, cp);
    st := Reopened(env, a, b, st);
    FirstIsLost(env, a, b, st);
  }

  lemma FirstIsLost(env: Env, a: SubId, b: SubId, st: State)
    requires Scene(env, a, b) && st.record == Record(Members(Batch(env, a)), Claims(a, b, LostBlock(env, b)))
    requires Pipeline(st) == [] && b in st.subs.sessions && st.subs.sessions[b] == Open(env, b, LostBlock(env, b) + 1)
    ensures !NothingLost(env, st)
  {
    assert env.source[b][0] !in st.record.completed;
    assert st.record.floor[b] == LostBlock(env, b);
  }
}
