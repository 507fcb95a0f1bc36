/** How a suspended stream comes to rest: whatever its goroutines are doing, they can finish and leave, so that a resume
    is granted. */
module StreamLeave {
  import opened Options
  import opened Ledger
  import opened StreamModel
  import opened StreamConservation
  import opened StreamReach

  // Nobody suspends, resumes, stops or restarts the stream.
  predicate Unprompted(a: Action) { !a.Control? }

  function Unprompting(): (State, Action) -> bool { (st: State, a: Action) => Unprompted(a) }

  // --- a poll in progress can go on ---

  // A poll in progress has its checkpoint, and the subscriptions it works on are registered.
  ghost predicate Ready(st: State) {
    && st.subs.visible <= st.store.registry.Keys
    && forall w :: 0 <= w < |st.pollers| ==>
         var p := st.pollers[w];
         && (p.phase.Idle? || p.checkpoint.Some?)
         && p.subs <= st.store.registry.Keys && p.phase.Todo() <= st.store.registry.Keys
  }

  lemma ReadyStep(env: Env, st: State, a: Action)
    requires Ready(st) && Step(env, st, a).Some?
    ensures Ready(Step(env, st, a).value)
  {
    if a.Poll? { ReadyPoller(env, st, a.w, a.l); }
    assert st.store.registry.Keys <= Step(env, st, a).value.store.registry.Keys;
  }

  lemma ReadyPoller(env: Env, st: State, w: nat, a: PollerAction)
    requires Ready(st) && PollerStep(env, st, w, a).Some?
    ensures Ready(PollerStep(env, st, w, a).value)
  {
  }

  lemma {:induction false} ReadyRun(env: Env, actions: seq<Action>)
    requires Run(env, Initial(), actions).Some?
    ensures Ready(Run(env, Initial(), actions).value)
  {
    if actions == [] {
    } else {
      var n := |actions| - 1;
      ReadyRun(env, actions[..n]);
      ReadyStep(env, Run(env, Initial(), actions[..n]).value, actions[n]);
    }
  }

  // --- steps on the way out ---

  // `st` is on the way, suspended.
  ghost predicate Leaving(env: Env, from: State, st: State) {
    && Reachable(env, from, Unprompting(), st) && StreamInv(env, st) && Accounted(st) && Ready(st)
    && st.stream.suspended
  }

  lemma SuspendedStays(env: Env, st: State, a: Action)
    requires st.stream.suspended && !a.Control? && Step(env, st, a).Some?
    ensures Step(env, st, a).value.stream.suspended
  {
  }

  lemma LeaveStep(env: Env, from: State, st: State, a: Action) returns (st': State)
    requires Leaving(env, from, st) && !a.Control? && Step(env, st, a).Some?
    ensures st' == Step(env, st, a).value && Leaving(env, from, st')
  {
    st' := Step(env, st, a).value;
    ReachableNext(env, from, Unprompting(), st, a);
    StreamInvStep(env, st, a);
    ReadyStep(env, st, a);
    SuspendedStays(env, st, a);
  }

  // --- the processor ---

  lemma AdvanceOut(env: Env, from: State, st: State, p: Processor, a: ProcessorAction,
                   p': Processor) returns (st': State)
    requires Leaving(env, from, st) && st.processors == [p] && !a.ExitProcessor?
    requires Advance(env, st, p, a).Some? && Advance(env, st, p, a).value.0 == p'
    ensures Leaving(env, from, st') && st'.processors == [p'] && st'.pollers == st.pollers
  {
    assert st.processors[0 := p'] == [p'];
    AdvanceKeepsPollers(env, st, p, a);
    st' := LeaveStep(env, from, st, Process(0, a));
  }

  lemma AdvanceKeepsPollers(env: Env, st: State, p: Processor, a: ProcessorAction)
    requires Advance(env, st, p, a).Some?
    ensures Advance(env, st, p, a).value.1.pollers == st.pollers
  {
  }

  lemma AcksOut(env: Env, from: State, st: State, calls: map<SubId, Event>) returns (st': State)
    requires Leaving(env, from, st) && st.processors == [Acking(calls)]
    ensures Leaving(env, from, st') && st'.processors == [Waiting] && st'.pollers == st.pollers
    decreases |calls|
  {
    if calls == map[] {
      st' := AdvanceOut(env, from, st, Acking(calls), EndAcks, Waiting);
    } else {
      var s :| s in calls;
      st' := AdvanceOut(env, from, st, Acking(calls), Ack(s), Acking(calls - {s}));
      assert (calls - {s}).Keys == calls.Keys - {s};
      st' := AcksOut(env, from, st', calls - {s});
    }
  }

  lemma SettledOut(env: Env, from: State, st: State, b: seq<Event>, processed: bool) returns (st': State)
    requires Leaving(env, from, st) && st.processors == [Settled(b, processed)]
    ensures Leaving(env, from, st') && st'.processors == [Waiting] && st'.pollers == st.pollers
  {
    st' := AdvanceOut(env, from, st, Settled(b, processed), Count, Counted(b, processed));
    st' := AdvanceOut(env, from, st', Counted(b, processed), BeginAcks, Waiting);
  }

  lemma ProcessorWaits(env: Env, from: State, st: State, p: Processor) returns (st': State)
    requires Leaving(env, from, st) && st.processors == [p]
    ensures Leaving(env, from, st') && st'.processors == [Waiting] && st'.pollers == st.pollers
  {
    match p
    case Waiting => st' := st;
    case Attempting(b) =>
      st' := AdvanceOut(env, from, st, p, Interrupt, Settled(b, false));
      st' := SettledOut(env, from, st', b, false);
    case Settled(b, processed) => st' := SettledOut(env, from, st, b, processed);
    case Counted(b, processed) => st' := AdvanceOut(env, from, st, p, BeginAcks, Waiting);
    case Acking(calls) => st' := AcksOut(env, from, st, calls);
  }

  lemma ProcessorLeaves(env: Env, from: State, st: State) returns (st': State)
    requires Leaving(env, from, st)
    ensures Leaving(env, from, st') && st'.processors == [] && st'.pollers == st.pollers
  {
    if st.processors == [] {
      st' := st;
    } else {
      assert st.processors == [st.processors[0]];
      st' := ProcessorWaits(env, from, st, st.processors[0]);
      st' := LeaveStep(env, from, st', Process(0, ExitProcessor));
    }
  }

  // --- the poller ---

  lemma TurnOut(env: Env, from: State, st: State, p: Poller, a: PollerAction, p': Poller) returns (st': State)
    requires Leaving(env, from, st) && st.pollers == [p] && st.processors == [] && !a.ExitPoller?
    requires Turn(env, st, p, a).Some? && Turn(env, st, p, a).value.0 == p'
    ensures Leaving(env, from, st') && st'.pollers == [p'] && st'.processors == []
  {
    assert st.pollers[0 := p'] == [p'];
    TurnKeepsProcessors(env, st, p, a);
    st' := LeaveStep(env, from, st, Poll(0, a));
  }

  lemma TurnKeepsProcessors(env: Env, st: State, p: Poller, a: PollerAction)
    requires Turn(env, st, p, a).Some?
    ensures Turn(env, st, p, a).value.1.processors == st.processors
  {
  }

  lemma CopyingOut(env: Env, from: State, st: State, p: Poller) returns (st': State)
    requires Leaving(env, from, st) && st.pollers == [p] && st.processors == [] && p.phase.Copying?
    ensures Leaving(env, from, st') && st'.processors == [] && |st'.pollers| == 1 && st'.pollers[0].phase.Idle?
    decreases |p.phase.todo|
  {
    assert st.pollers[0] == p && p.checkpoint.Some?;
    if p.phase.todo == {} {
      st' := TurnOut(env, from, st, p, EndPoll(false), p.(phase := Idle));
    } else {
      var s :| s in p.phase.todo;
      var p' := Turn(env, st, p, CopyMark(s)).value.0;
      st' := TurnOut(env, from, st, p, CopyMark(s), p');
      st' := CopyingOut(env, from, st', p');
    }
  }

  lemma StartingOut(env: Env, from: State, st: State, p: Poller) returns (st': State)
    requires Leaving(env, from, st) && st.pollers == [p] && st.processors == [] && p.phase.Starting?
    ensures Leaving(env, from, st') && st'.processors == [] && |st'.pollers| == 1 && st'.pollers[0].phase.Idle?
    decreases |p.phase.todo|
  {
    if p.phase.todo == {} {
      st' := TurnOut(env, from, st, p, BeginCopy, p.(phase := Copying(p.subs, false)));
      st' := CopyingOut(env, from, st', p.(phase := Copying(p.subs, false)));
    } else {
      var s :| s in p.phase.todo;
      assert st.pollers[0] == p && s in st.store.registry;
      var p' := p.(phase := Starting(p.phase.todo - {s}));
      st' := TurnOut(env, from, st, p, StartFilter(s, None, false), p');
      st' := StartingOut(env, from, st', p');
    }
  }

  lemma PollerLeaves(env: Env, from: State, st: State) returns (st': State)
    requires Leaving(env, from, st) && st.processors == []
    ensures Leaving(env, from, st') && st'.processors == [] && st'.pollers == []
  {
    if st.pollers == [] {
      st' := st;
    } else {
      var p := st.pollers[0];
      assert st.pollers == [p];
      st' := st;
      if p.phase.Starting? {
        st' := StartingOut(env, from, st, p);
      } else if p.phase.Copying? {
        st' := CopyingOut(env, from, st, p);
      }
      st' := LeaveStep(env, from, st', Poll(0, ExitPoller));
    }
  }

  // After any run that leaves the stream suspended, whatever its goroutines are doing, some run in which nobody
  // interferes ends with both of them gone; a resume is then granted.
  lemma ResumePossible(env: Env, actions: seq<Action>, st: State) returns (st': State)
    requires Run(env, Initial(), actions) == Some(st) && st.stream.suspended
    ensures Reachable(env, st, Unprompting(), st') && st'.processors == [] && st'.pollers == []
    ensures var resumed := Step(env, st', Control(Resume)).value;
            !resumed.stream.suspended && |resumed.processors| == |resumed.pollers| == 1
  {
    StreamInvRun(env, actions);
    ReadyRun(env, actions);
    ReachableFirst(env, st, Unprompting());
    st' := ProcessorLeaves(env, st, st);
    st' := PollerLeaves(env, st, st');
  }

  // --- subscriptions ---

  // A subscription is registered once, with where it asks to start from, and seen from then on; after a restart it is
  // seen again when it has been recovered, and it always can be.
  lemma RegisteredAndSeen(st: State, s: SubId, from: FromBlock)
    ensures var added := SubscriptionStep(st, Add(s, from));
            if s in st.store.registry then added.None?
            else
              && added.Some? && added.value.store.registry == st.store.registry[s := from]
              && added.value.store.checkpoint == st.store.checkpoint
              && added.value.subs == st.subs.(visible := st.subs.visible + {s})
    ensures var recovered := SubscriptionStep(st, Recover(s));
            if s in st.store.registry then recovered == Some(st.(subs := st.subs.(visible := st.subs.visible + {s})))
            else recovered.None?
  {
  }
}
