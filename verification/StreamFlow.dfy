/** What every uninterrupted run keeps of the way events take: relayed in order from where their filter was
    opened, and completed before they are acknowledged. */
module StreamFlow {
  import opened Options
  import opened Ledger
  import opened StreamModel
  import opened StreamConservation
  import HighWater

  // A session has relayed everything from its first event to its cursor.
  ghost predicate RelayedAll(env: Env, session: Session, accepted: seq<Event>, s: SubId) {
    s in env.source ==>
      && FirstFrom(env.source[s], session.since) <= session.next <= |env.source[s]|
      && forall j :: FirstFrom(env.source[s], session.since) <= j < session.next ==> env.source[s][j] in accepted
  }

  // An accepted event is the source's, and its session relayed what precedes it before it.
  ghost predicate RelayedInOrder(env: Env, sessions: map<SubId, Session>, before: seq<Event>, e: Event) {
    && e.subId in sessions && e.subId in env.source
    && FirstFrom(env.source[e.subId], sessions[e.subId].since) <= e.position < |env.source[e.subId]|
    && e == env.source[e.subId][e.position]
    && forall j :: FirstFrom(env.source[e.subId], sessions[e.subId].since) <= j < e.position ==>
         env.source[e.subId][j] in before
  }

  ghost predicate Relayed(env: Env, sessions: map<SubId, Session>, accepted: seq<Event>) {
    && (forall s :: s in sessions ==> RelayedAll(env, sessions[s], accepted, s))
    && (forall k :: 0 <= k < |accepted| ==> RelayedInOrder(env, sessions, accepted[..k], accepted[k]))
  }

  // What a processor is about to acknowledge has been completed.
  ghost predicate ProcessorDone(done: seq<Event>, p: Processor) {
    match p
    case Waiting => true
    case Attempting(b) => true
    case Settled(b, _) => forall e :: e in b ==> e in done
    case Counted(b, _) => forall e :: e in b ==> e in done
    case Acking(calls) => forall s :: s in calls ==> calls[s].subId == s && calls[s] in done
  }

  ghost predicate Handled(ps: seq<Processor>, done: seq<Event>, completed: set<Event>) {
    && (forall e :: e in done ==> e in completed)
    && (forall w :: 0 <= w < |ps| ==> ProcessorDone(done, ps[w]))
  }

  ghost predicate FlowInv(env: Env, st: State) {
    && Relayed(env, st.subs.sessions, st.history.accepted)
    && Handled(st.processors, st.history.done, st.record.completed)
    && st.subs.lingering == []
  }

  ghost predicate BaseInv(env: Env, st: State) {
    StreamInv(env, st) && InOrder(st) && FlowInv(env, st)
  }

  // --- dispatcher ---

  lemma ReceiveRelaysAll(env: Env, session: Session, accepted: seq<Event>, s: SubId)
    requires s in env.source && session.next < |env.source[s]| && RelayedAll(env, session, accepted, s)
    ensures RelayedAll(env, session.(next := session.next + 1), accepted + [env.source[s][session.next]], s)
  {
  }

  lemma ReceiveKeepsRelayed(env: Env, sessions: map<SubId, Session>, accepted: seq<Event>, s: SubId)
    requires BlockOrdered(env.source) && Relayed(env, sessions, accepted)
    requires s in sessions && s in env.source && sessions[s].next < |env.source[s]|
    ensures Relayed(env, Moved(sessions, s), accepted + [env.source[s][sessions[s].next]])
  {
    var session, e := sessions[s], env.source[s][sessions[s].next];
    var sessions', accepted' := Moved(sessions, s), accepted + [e];
    assert RelayedAll(env, session, accepted, s);
    ReceiveRelaysAll(env, session, accepted, s);
    forall t | t in sessions' && t != s ensures RelayedAll(env, sessions'[t], accepted', t) {
      assert RelayedAll(env, sessions[t], accepted, t);
    }
    forall k | 0 <= k < |accepted'| ensures RelayedInOrder(env, sessions', accepted'[..k], accepted'[k]) {
      if k < |accepted| {
        assert RelayedInOrder(env, sessions, accepted[..k], accepted[k]);
        assert accepted'[..k] == accepted[..k];
        SameSince(env, sessions, sessions', accepted[..k], accepted[k]);
      } else {
        assert accepted'[..k] == accepted;
        NextInOrder(env, sessions', accepted, e, session);
      }
    }
  }

  lemma SameSince(env: Env, sessions: map<SubId, Session>, sessions': map<SubId, Session>, before: seq<Event>, e: Event)
    requires RelayedInOrder(env, sessions, before, e)
    requires e.subId in sessions' && sessions'[e.subId].since == sessions[e.subId].since
    ensures RelayedInOrder(env, sessions', before, e)
  {
  }

  lemma NextInOrder(env: Env, sessions: map<SubId, Session>, accepted: seq<Event>, e: Event, session: Session)
    requires BlockOrdered(env.source) && e.subId in env.source && session.next < |env.source[e.subId]|
    requires e == env.source[e.subId][session.next] && RelayedAll(env, session, accepted, e.subId)
    requires e.subId in sessions && sessions[e.subId].since == session.since
    ensures RelayedInOrder(env, sessions, accepted, e)
  {
  }

  lemma DispatcherFlows(env: Env, st: State, a: DispatcherAction)
    requires BlockOrdered(env.source) && FlowInv(env, st) && DispatcherStep(env, st, a).Some?
    ensures FlowInv(env, DispatcherStep(env, st, a).value)
  {
    if a.Receive? {
      ReceiveKeepsRelayed(env, st.subs.sessions, st.history.accepted, a.sub);
    }
  }

  // --- processor, poller, control ---

  lemma ProcessorFlows(env: Env, st: State, w: nat, a: ProcessorAction)
    requires InOrder(st) && UnprocessedNotAcked(st) && FlowInv(env, st) && ProcessorStep(env, st, w, a).Some?
    ensures FlowInv(env, ProcessorStep(env, st, w, a).value)
  {
    if a.BeginAcks? {
      HighWater.LastKeepsSub(st.processors[w].batch);
    }
  }

  lemma StartKeepsRelayed(env: Env, st: State, s: SubId, o: Option<Opening>, subscribed: bool)
    requires FlowInv(env, st)
    ensures Relayed(env, Start(env, st.subs, s, o, subscribed).sessions, st.history.accepted)
  {
    var sessions := Start(env, st.subs, s, o, subscribed).sessions;
    forall k | 0 <= k < |st.history.accepted|
      ensures RelayedInOrder(env, sessions, st.history.accepted[..k], st.history.accepted[k])
    {
      assert RelayedInOrder(env, st.subs.sessions, st.history.accepted[..k], st.history.accepted[k]);
    }
  }

  // A turn that opens no filter leaves the filters as they are while nobody suspends.
  lemma TurnSessions(env: Env, st: State, w: nat, a: PollerAction)
    requires !st.stream.SuspendOrStop() && PollerStep(env, st, w, a).Some? && !a.StartFilter?
    ensures PollerStep(env, st, w, a).value.subs == st.subs
  {
  }

  lemma StartSubs(env: Env, st: State, w: nat, a: PollerAction)
    requires PollerStep(env, st, w, a).Some? && a.StartFilter?
    ensures w < |st.pollers| && st.pollers[w].checkpoint.Some? && a.sub in st.store.registry
    ensures var o := OpeningOf(st.store.registry[a.sub], At(st.pollers[w].checkpoint.value, a.sub), a.height);
            PollerStep(env, st, w, a).value.subs == Start(env, st.subs, a.sub, o, a.subscribed)
  {
  }

  lemma FlowKept(env: Env, st: State, st': State)
    requires FlowInv(env, st) && Relayed(env, st'.subs.sessions, st.history.accepted) && st'.subs.lingering == []
    requires st'.processors == st.processors && st'.history == st.history && st'.record.completed == st.record.completed
    ensures FlowInv(env, st')
  {
  }

  lemma PollerFlows(env: Env, st: State, w: nat, a: PollerAction)
    requires InOrder(st) && FlowInv(env, st) && PollerStep(env, st, w, a).Some?
    ensures FlowInv(env, PollerStep(env, st, w, a).value)
  {
    TurnFrame(env, st, w, a);
    if a.StartFilter? {
      StartSubs(env, st, w, a);
      var o := OpeningOf(st.store.registry[a.sub], At(st.pollers[w].checkpoint.value, a.sub), a.height);
      StartKeepsRelayed(env, st, a.sub, o, a.subscribed);
    } else {
      TurnSessions(env, st, w, a);
    }
    FlowKept(env, st, PollerStep(env, st, w, a).value);
  }

  lemma ControlFlows(env: Env, st: State, a: ControlAction)
    requires OneWorkerEach(st) && FlowInv(env, st) && Uninterrupted(Control(a)) && ControlStep(st, a).Some?
    ensures FlowInv(env, ControlStep(st, a).value)
  {
  }

  lemma FlowStep(env: Env, st: State, a: Action)
    requires BlockOrdered(env.source) && BaseInv(env, st) && Uninterrupted(a) && Step(env, st, a).Some?
    ensures FlowInv(env, Step(env, st, a).value)
  {
    match a {
      case Subscription(s) =>
      case Dispatcher(d) => DispatcherFlows(env, st, d);
      case Process(w, p) => ProcessorFlows(env, st, w, p);
      case Poll(w, l) => PollerFlows(env, st, w, l);
      case Control(c) => ControlFlows(env, st, c);
    }
  }

  lemma {:induction false} BaseRun(env: Env, actions: seq<Action>)
    requires BlockOrdered(env.source) && Run(env, Initial(), actions).Some?
    requires forall i :: 0 <= i < |actions| ==> Uninterrupted(actions[i])
    ensures BaseInv(env, Run(env, Initial(), actions).value)
  {
    StreamInvRun(env, actions);
    InOrderRun(env, actions);
    if actions == [] {
    } else {
      var n := |actions| - 1;
      BaseRun(env, actions[..n]);
      FlowStep(env, Run(env, Initial(), actions[..n]).value, actions[n]);
    }
  }

  // --- what the invariant says of one event ---

  // Everything the session relayed up to a completed event is completed.
  lemma DonePrefix(env: Env, st: State, e: Event)
    requires InOrder(st) && Relayed(env, st.subs.sessions, st.history.accepted) && e in st.history.done
    ensures RelayedInOrder(env, st.subs.sessions, st.history.done, e)
  {
    var k :| 0 <= k < |st.history.done| && st.history.done[k] == e;
    assert st.history.accepted[k] == e;
    assert RelayedInOrder(env, st.subs.sessions, st.history.accepted[..k], st.history.accepted[k]);
    assert st.history.accepted[..k] == st.history.done[..k];
  }

  // An acknowledgement about to be made is that of a completed event of an open filter.
  lemma AckedIsDone(env: Env, st: State, w: nat, s: SubId)
    requires InOrder(st) && FlowInv(env, st) && w < |st.processors| && st.processors[w].Acking?
    requires s in st.processors[w].calls
    ensures var e := st.processors[w].calls[s]; e.subId == s && e in st.history.done && s in st.subs.sessions
  {
    assert ProcessorDone(st.history.done, st.processors[w]);
    DonePrefix(env, st, st.processors[w].calls[s]);
  }
}
