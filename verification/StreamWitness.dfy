/** Runs that show the conditions of the delivery theorem are needed. */
module StreamWitness {
  import opened Options
  import opened Ledger
  import opened StreamModel
  import opened StreamConservation
  import opened StreamSafety
  import opened StreamDelivery
  import opened StreamReach

  // --- a block split over two batches ---

  // The first event of block `b` is not its last.
  ghost predicate SplitsBlock(env: Env, s: SubId, b: nat) {
    && BlockOrdered(env.source) && s in env.source
    && var k := FirstFrom(env.source[s], b);
       k + 1 < |env.source[s]| && env.source[s][k].blockNumber == env.source[s][k + 1].blockNumber == b
  }

  function FirstOf(env: Env, s: SubId, b: nat): Event
    requires SplitsBlock(env, s, b)
  {
    env.source[s][FirstFrom(env.source[s], b)]
  }

  ghost predicate Running(st: State, s: SubId, b: nat, p: Processor, hwm: Marks, completed: set<Event>) {
    && !st.stream.suspended && !st.stream.stopped && st.stream.dispatching
    && st.processors == [p] && st.subs.hwm == hwm
    && st.pollers == [Poller(Starting({}), {s}, Some(map[]))]
    && st.record == Record(completed, map[s := b])
  }

  lemma Subscribed(env: Env, s: SubId, b: nat) returns (st: State)
    requires SplitsBlock(env, s, b)
    ensures Reachable(env, Initial(), Heeding(env), st) && Running(st, s, b, Waiting, map[], {})
    ensures st.stream == Started(false)
    ensures s in st.subs.sessions && st.subs.sessions[s].next == FirstFrom(env.source[s], b)
  {
    ReachableFirst(env, Initial(), Heeding(env));
    var add := Subscription(Add(s, Explicit(b)));
    ReachableNext(env, Initial(), Heeding(env), Initial(), add);
    st := Step(env, Initial(), add).value;
    assert st.subs.visible == {s} && st.record.floor == map[s := b];
    ReachableNext(env, Initial(), Heeding(env), st, Poll(0, BeginPoll(true)));
    st := Step(env, st, Poll(0, BeginPoll(true))).value;
    assert st.pollers == [Poller(Starting({s}), {s}, Some(map[]))];
    ReachableNext(env, Initial(), Heeding(env), st, Poll(0, StartFilter(s, None, true)));
    st := Step(env, st, Poll(0, StartFilter(s, None, true))).value;
    assert {s} - {s} == {};
  }

  // Whatever the batch size: a full batch of one, or a batch that has waited long enough.
  lemma FirstQueued(env: Env, s: SubId, b: nat, st: State) returns (st': State)
    requires SplitsBlock(env, s, b) && Reachable(env, Initial(), Heeding(env), st)
    requires Running(st, s, b, Waiting, map[], {}) && st.stream == Started(false)
    requires s in st.subs.sessions && st.subs.sessions[s].next == FirstFrom(env.source[s], b)
    ensures Reachable(env, Initial(), Heeding(env), st') && Running(st', s, b, Waiting, map[], {})
    ensures st'.stream.batchQueue == [[FirstOf(env, s, b)]]
  {
    var e := FirstOf(env, s, b);
    ReachableNext(env, Initial(), Heeding(env), st, Dispatcher(Receive(s)));
    st' := Step(env, st, Dispatcher(Receive(s))).value;
    assert st.stream.currentBatch + [e] == [e];
    if env.batchSize > 1 {
      ReachableNext(env, Initial(), Heeding(env), st', Dispatcher(Timeout));
      st' := Step(env, st', Dispatcher(Timeout)).value;
    }
    assert st'.stream.batchQueue == [] + [[e]];
  }

  lemma FirstDelivered(env: Env, s: SubId, b: nat, st: State) returns (st': State)
    requires SplitsBlock(env, s, b) && Reachable(env, Initial(), Heeding(env), st)
    requires Running(st, s, b, Waiting, map[], {})
    requires st.stream.batchQueue == [[FirstOf(env, s, b)]]
    ensures var e := FirstOf(env, s, b);
            Reachable(env, Initial(), Heeding(env), st') && Running(st', s, b, Settled([e], true), map[], {e})
  {
    var e := FirstOf(env, s, b);
    ReachableNext(env, Initial(), Heeding(env), st, Process(0, Take));
    st' := Step(env, st, Process(0, Take)).value;
    assert st'.processors == [Attempting([e])];
    ReachableNext(env, Initial(), Heeding(env), st', Process(0, Deliver));
    st' := Step(env, st', Process(0, Deliver)).value;
    assert {} + (set x | x in [e]) == {e};
  }

  lemma FirstCounted(env: Env, s: SubId, b: nat, e: Event, st: State) returns (st': State)
    requires Reachable(env, Initial(), Heeding(env), st) && Running(st, s, b, Settled([e], true), map[], {e})
    requires e.subId == s
    ensures Reachable(env, Initial(), Heeding(env), st') && Running(st', s, b, Acking(map[s := e]), map[], {e})
  {
    ReachableNext(env, Initial(), Heeding(env), st, Process(0, Count));
    st' := Step(env, st, Process(0, Count)).value;
    assert st'.processors == [Counted([e], true)];
    st' := FirstListed(env, s, b, e, st');
  }

  lemma FirstListed(env: Env, s: SubId, b: nat, e: Event, st: State) returns (st': State)
    requires Reachable(env, Initial(), Heeding(env), st) && Running(st, s, b, Counted([e], true), map[], {e})
    requires e.subId == s
    ensures Reachable(env, Initial(), Heeding(env), st') && Running(st', s, b, Acking(map[s := e]), map[], {e})
  {
    assert LastPerSub([e]) == map[s := e] by { assert [e][..0] == []; }
    assert Advance(env, st, Counted([e], true), BeginAcks) == Some((Acking(map[s := e]), st));
    ReachableNext(env, Initial(), Heeding(env), st, Process(0, BeginAcks));
    st' := Step(env, st, Process(0, BeginAcks)).value;
  }

  lemma FirstAcknowledged(env: Env, s: SubId, b: nat, e: Event, st: State) returns (st': State)
    requires Reachable(env, Initial(), Heeding(env), st) && Running(st, s, b, Acking(map[s := e]), map[], {e})
    requires e.subId == s
    ensures Reachable(env, Initial(), Heeding(env), st')
    ensures Running(st', s, b, Acking(map[]), map[s := e.blockNumber + 1], {e})
  {
    var calls := map[s := e];
    assert calls - {s} == map[] && Raise(map[], e) == map[s := e.blockNumber + 1];
    assert Advance(env, st, Acking(calls), Ack(s)) ==
           Some((Acking(map[]), st.(subs := st.subs.(hwm := map[s := e.blockNumber + 1]))));
    ReachableNext(env, Initial(), Heeding(env), st, Process(0, Ack(s)));
    st' := Step(env, st, Process(0, Ack(s))).value;
  }

  lemma CopyBegun(env: Env, s: SubId, b: nat, st: State, p: Processor, mark: nat,
                  completed: set<Event>) returns (st': State)
    requires Reachable(env, Initial(), Heeding(env), st) && Running(st, s, b, p, map[s := mark], completed)
    ensures Reachable(env, Initial(), Heeding(env), st')
    ensures st'.pollers == [Poller(Copying({s}, false), {s}, Some(map[]))]
    ensures st'.subs.hwm == map[s := mark] && st'.record == Record(completed, map[s := b])
  {
    ReachableNext(env, Initial(), Heeding(env), st, Poll(0, BeginCopy));
    st' := Step(env, st, Poll(0, BeginCopy)).value;
  }

  // The height after the block is stored while its second event has not been delivered: a crash now
  // loses that event.
  lemma SplitBlockIsLost(env: Env, s: SubId, b: nat) returns (st: State)
    requires SplitsBlock(env, s, b)
    ensures Reachable(env, Initial(), Heeding(env), st) && !CheckpointSafe(env, st)
  {
    var e := FirstOf(env, s, b);
    st := Subscribed(env, s, b);
    st := FirstQueued(env, s, b, st);
    st := FirstDelivered(env, s, b, st);
    st := FirstCounted(env, s, b, e, st);
    st := FirstAcknowledged(env, s, b, e, st);
    st := CopyBegun(env, s, b, st, Acking(map[]), e.blockNumber + 1, {e});
    st := MarkStored(env, Initial(), Heeding(env), s, e.blockNumber + 1, st);
    SecondIsClaimed(env, s, b, st);
  }

  lemma SecondIsClaimed(env: Env, s: SubId, b: nat, st: State)
    requires SplitsBlock(env, s, b) && s in st.record.floor && st.record.floor[s] == b
    requires At(st.store.checkpoint, s) == b + 1 && st.record.completed == {FirstOf(env, s, b)}
    ensures !CheckpointSafe(env, st)
  {
    var k := FirstFrom(env.source[s], b);
    assert env.source[s][k + 1] !in st.record.completed;
    assert !Covered(env, st.record, s, At(st.store.checkpoint, s));
  }

  lemma SharedBlock(src: Source) returns (s: SubId, b: nat)
    requires BlockOrdered(src) && !OneEventPerBlock(src)
    ensures s in src
    ensures var k := FirstFrom(src[s], b); k + 1 < |src[s]| && src[s][k].blockNumber == src[s][k + 1].blockNumber == b
  {
    var x, i, j :| x in src && 0 <= i < j < |src[x]| && src[x][i].blockNumber >= src[x][j].blockNumber;
    s, b := x, src[x][i].blockNumber;
    var k := FirstFrom(src[s], b);
    assert src[s][i].blockNumber <= src[s][k + 1].blockNumber <= src[s][j].blockNumber || k + 1 <= i;
    assert src[s][k].blockNumber <= src[s][k + 1].blockNumber <= src[s][j].blockNumber;
  }

  // Uninterrupted and without forgetful polls, for any batch size: the stored checkpoint is always safe to
  // restart from exactly when the ledger gives no subscription two events of one block.
  lemma CheckpointSafeExactly(env: Env)
    requires BlockOrdered(env.source)
    ensures (forall st :: Reachable(env, Initial(), Heeding(env), st) ==> CheckpointSafe(env, st))
            <==> OneEventPerBlock(env.source)
  {
    if OneEventPerBlock(env.source) {
      forall st | Reachable(env, Initial(), Heeding(env), st) ensures CheckpointSafe(env, st) {
        var actions :| Leads(env, Initial(), Heeding(env), actions, st);
        AtLeastOnceUnsplit(env, actions);
      }
    } else {
      var s, b := SharedBlock(env.source);
      var st := SplitBlockIsLost(env, s, b);
    }
  }
}
