/** Which acknowledgements lie once suspensions are allowed: those that pass a later event of their own block, or an
    event of a batch that was given up or left unattempted. */
module StreamSkips {
  import opened Options
  import opened Ledger
  import opened StreamModel
  import opened StreamConservation
  import opened StreamOrigin
  import opened StreamHeights
  import opened StreamSafety
  import opened StreamReach
  import opened StreamOrder

  // The heights the node reports never fall below a mark.
  predicate Rising(st: State, a: Action) {
    a.Poll? && a.l.StartFilter? && a.l.height.Some? ==> At(st.subs.hwm, a.l.sub) <= a.l.height.value
  }

  function Risingly(): (State, Action) -> bool { (st: State, a: Action) => Rising(st, a) }

  // --- where the filters behind the accepted events were opened ---

  // Below `since` nothing is left to deliver: what is claimed there is behind, or nothing there will be claimed.
  ghost predicate Rooted(env: Env, r: Record, hwm: Marks, pollers: seq<Poller>, s: SubId, since: nat) {
    if s in r.floor then Behind(env, r.completed, s, r.floor[s], since)
    else since <= At(hwm, s) && Awaited(pollers, s, since)
  }

  ghost predicate Awaited(pollers: seq<Poller>, s: SubId, since: nat) {
    forall w :: 0 <= w < |pollers| && pollers[w].checkpoint.Some? ==>
      var copy := At(pollers[w].checkpoint.value, s); copy > 0 ==> since <= copy
  }

  ghost predicate RootedIn(env: Env, st: State, s: SubId, since: nat) {
    Rooted(env, st.record, st.subs.hwm, st.pollers, s, since)
  }

  // A filter opened at `since` has handed over everything from there up to position `next`.
  ghost predicate Relays(env: Env, accepted: seq<Event>, s: SubId, since: nat, next: nat) {
    s in env.source ==>
      && FirstFrom(env.source[s], since) <= next <= |env.source[s]|
      && forall j :: FirstFrom(env.source[s], since) <= j < next ==> env.source[s][j] in accepted
  }

  ghost predicate SessionsRooted(env: Env, st: State, sessions: map<SubId, Session>) {
    forall s :: s in sessions ==>
      && s in st.store.registry && RootedIn(env, st, s, sessions[s].since)
      && Relays(env, st.history.accepted, s, sessions[s].since, sessions[s].next)
  }

  ghost predicate EventRooted(env: Env, st: State, before: seq<Event>, e: Event) {
    && FromLedger(env.source, st.store.registry.Keys, e)
    && exists since: nat :: RootedIn(env, st, e.subId, since) && Relays(env, before, e.subId, since, e.position)
  }

  ghost predicate RootInv(env: Env, st: State) {
    && SessionsRooted(env, st, st.subs.sessions)
    && (forall k :: 0 <= k < |st.subs.lingering| ==> SessionsRooted(env, st, st.subs.lingering[k]))
    && (forall k :: 0 <= k < |st.history.accepted| ==>
         EventRooted(env, st, st.history.accepted[..k], st.history.accepted[k]))
    && (forall s :: Explicitly(st.store.registry, s) ==>
         s in st.record.floor && st.record.floor[s] == st.store.registry[s].block)
  }

  // --- steps that keep every root ---

  ghost predicate RootsKept(env: Env, st: State, st': State) {
    && st.store.registry.Keys <= st'.store.registry.Keys && st'.history.accepted == st.history.accepted
    && forall s, since: nat :: s in st.store.registry && RootedIn(env, st, s, since) ==> RootedIn(env, st', s, since)
  }

  lemma SessionsKept(env: Env, st: State, st': State, sessions: map<SubId, Session>)
    requires RootsKept(env, st, st') && SessionsRooted(env, st, sessions)
    ensures SessionsRooted(env, st', sessions)
  {
  }

  lemma EventKept(env: Env, st: State, st': State, before: seq<Event>, e: Event)
    requires RootsKept(env, st, st') && EventRooted(env, st, before, e)
    ensures EventRooted(env, st', before, e)
  {
    var since: nat :| RootedIn(env, st, e.subId, since) && Relays(env, before, e.subId, since, e.position);
    assert RootedIn(env, st', e.subId, since);
  }

  lemma RootFrame(env: Env, st: State, st': State)
    requires RootInv(env, st) && RootsKept(env, st, st') && SessionsRooted(env, st', st'.subs.sessions)
    requires st'.subs.lingering == st.subs.lingering || st'.subs.lingering == st.subs.lingering + [st.subs.sessions]
    requires forall s :: Explicitly(st'.store.registry, s) ==>
               s in st'.record.floor && st'.record.floor[s] == st'.store.registry[s].block
    ensures RootInv(env, st')
  {
    forall k | 0 <= k < |st'.subs.lingering| ensures SessionsRooted(env, st', st'.subs.lingering[k]) {
      SessionsKept(env, st, st', st'.subs.lingering[k]);
    }
    forall k | 0 <= k < |st.history.accepted|
      ensures EventRooted(env, st', st.history.accepted[..k], st.history.accepted[k])
    {
      EventKept(env, st, st', st.history.accepted[..k], st.history.accepted[k]);
    }
  }

  lemma RootSubscription(env: Env, st: State, a: SubscriptionAction)
    requires KeptInv(st) && RootInv(env, st) && SubscriptionStep(st, a).Some?
    ensures RootInv(env, SubscriptionStep(st, a).value)
  {
    var st' := SubscriptionStep(st, a).value;
    assert RootsKept(env, st, st');
    SessionsKept(env, st, st', st.subs.sessions);
    RootFrame(env, st, st');
  }

  lemma RootProcessor(env: Env, st: State, w: nat, a: ProcessorAction)
    requires RootInv(env, st) && ProcessorStep(env, st, w, a).Some?
    ensures RootInv(env, ProcessorStep(env, st, w, a).value)
  {
    var st' := ProcessorStep(env, st, w, a).value;
    if !a.ExitProcessor? {
      AdvanceFrame(env, st, st.processors[w], a);
      AdvanceRaises(env, st, st.processors[w], a);
    }
    forall s, since: nat | RootedIn(env, st, s, since) ensures RootedIn(env, st', s, since) {}
    SessionsKept(env, st, st', st.subs.sessions);
    RootFrame(env, st, st');
  }

  lemma AdvanceRaises(env: Env, st: State, p: Processor, a: ProcessorAction)
    requires Advance(env, st, p, a).Some?
    ensures var st' := Advance(env, st, p, a).value.1;
            st'.history.accepted == st.history.accepted && forall s :: At(st.subs.hwm, s) <= At(st'.subs.hwm, s)
  {
  }

  // --- the dispatcher ---

  lemma SessionsMore(env: Env, st: State, st': State, e: Event, sessions: map<SubId, Session>)
    requires SessionsRooted(env, st, sessions) && st'.history.accepted == st.history.accepted + [e]
    requires st'.store == st.store
    requires st'.record == st.record && st'.subs.hwm == st.subs.hwm && st'.pollers == st.pollers
    ensures SessionsRooted(env, st', sessions)
  {
  }

  lemma SessionsMoved(env: Env, st: State, st': State, sessions: map<SubId, Session>, s: SubId)
    requires SessionsRooted(env, st, sessions) && s in sessions && s in env.source && sessions[s].next < |env.source[s]|
    requires st'.history.accepted == st.history.accepted + [env.source[s][sessions[s].next]] && st'.store == st.store
    requires st'.record == st.record && st'.subs.hwm == st.subs.hwm && st'.pollers == st.pollers
    ensures SessionsRooted(env, st', Moved(sessions, s))
  {
    SessionsMore(env, st, st', env.source[s][sessions[s].next], sessions);
  }

  lemma NextRooted(env: Env, st: State, sessions: map<SubId, Session>, s: SubId)
    requires BlockOrdered(env.source) && SessionsRooted(env, st, sessions) && s in sessions && s in env.source
    requires sessions[s].next < |env.source[s]|
    ensures EventRooted(env, st, st.history.accepted, env.source[s][sessions[s].next])
  {
    assert RootedIn(env, st, s, sessions[s].since)
        && Relays(env, st.history.accepted, s, sessions[s].since, sessions[s].next);
  }

  lemma RootAccept(env: Env, st: State, e: Event, subs: Subs)
    requires RootInv(env, st) && EventRooted(env, st, st.history.accepted, e) && subs.hwm == st.subs.hwm
    requires SessionsRooted(env, Accept(env, st, e, subs), subs.sessions)
    requires forall k :: 0 <= k < |subs.lingering| ==> SessionsRooted(env, Accept(env, st, e, subs), subs.lingering[k])
    ensures RootInv(env, Accept(env, st, e, subs))
  {
    var st' := Accept(env, st, e, subs);
    forall k | 0 <= k < |st'.history.accepted|
      ensures EventRooted(env, st', st'.history.accepted[..k], st'.history.accepted[k])
    {
      if k < |st.history.accepted| {
        assert st'.history.accepted[..k] == st.history.accepted[..k];
        SameRoots(env, st, st', st.history.accepted[..k], st.history.accepted[k]);
      } else {
        assert st'.history.accepted[..k] == st.history.accepted;
        SameRoots(env, st, st', st.history.accepted, e);
      }
    }
  }

  lemma SameRoots(env: Env, st: State, st': State, before: seq<Event>, e: Event)
    requires EventRooted(env, st, before, e) && st'.store == st.store && st'.record == st.record
    requires st'.subs.hwm == st.subs.hwm && st'.pollers == st.pollers
    ensures EventRooted(env, st', before, e)
  {
    var since: nat :| RootedIn(env, st, e.subId, since) && Relays(env, before, e.subId, since, e.position);
    assert RootedIn(env, st', e.subId, since);
  }

  lemma RootReceive(env: Env, st: State, s: SubId)
    requires BlockOrdered(env.source) && RootInv(env, st) && CanReceive(env, st, s)
    ensures RootInv(env, DispatcherStep(env, st, Receive(s)).value)
  {
    var st' := DispatcherStep(env, st, Receive(s)).value;
    NextRooted(env, st, st.subs.sessions, s);
    SessionsMoved(env, st, st', st.subs.sessions, s);
    forall k | 0 <= k < |st.subs.lingering| ensures SessionsRooted(env, st', st.subs.lingering[k]) {
      SessionsMore(env, st, st', NextEvent(env, st, s), st.subs.lingering[k]);
    }
    RootAccept(env, st, NextEvent(env, st, s), st'.subs);
  }

  lemma RootReceiveLate(env: Env, st: State, k: nat, s: SubId)
    requires BlockOrdered(env.source) && RootInv(env, st) && CanReceiveLate(env, st, k, s)
    ensures RootInv(env, DispatcherStep(env, st, ReceiveLate(k, s)).value)
  {
    var st', e := DispatcherStep(env, st, ReceiveLate(k, s)).value, LateEvent(env, st, k, s);
    NextRooted(env, st, st.subs.lingering[k], s);
    SessionsMore(env, st, st', e, st.subs.sessions);
    forall m | 0 <= m < |st.subs.lingering| ensures SessionsRooted(env, st', st'.subs.lingering[m]) {
      if m == k {
        SessionsMoved(env, st, st', st.subs.lingering[k], s);
      } else {
        SessionsMore(env, st, st', e, st.subs.lingering[m]);
      }
    }
    RootAccept(env, st, e, st'.subs);
  }

  lemma RootDispatcher(env: Env, st: State, a: DispatcherAction)
    requires BlockOrdered(env.source) && RootInv(env, st) && DispatcherStep(env, st, a).Some?
    ensures RootInv(env, DispatcherStep(env, st, a).value)
  {
    var st' := DispatcherStep(env, st, a).value;
    match a
    case Receive(s) => RootReceive(env, st, s);
    case ReceiveLate(k, s) => RootReceiveLate(env, st, k, s);
    case Timeout => assert RootsKept(env, st, st'); RootFrame(env, st, st');
    case CloseDispatcher => assert RootsKept(env, st, st'); RootFrame(env, st, st');
  }

  // --- the poller ---

  lemma StartRoots(env: Env, st: State, a: PollerAction, s: SubId, since: nat)
    requires OneWorkerEach(st) && KeptInv(st) && RootInv(env, st) && Rising(st, Poll(0, a))
    requires a.StartFilter? && PollerStep(env, st, 0, a).Some? && RootedIn(env, st, s, since)
    ensures RootedIn(env, PollerStep(env, st, 0, a).value, s, since)
  {
    assert CopyKept(st.store.registry, st.subs.hwm, st.record.floor, a.sub, At(st.pollers[0].checkpoint.value, a.sub));
  }

  // A new filter is opened where everything claimed below is behind.
  lemma NewRoot(env: Env, st: State, a: PollerAction)
    requires OneWorkerEach(st) && KeptInv(st) && RootInv(env, st) && Covering(env, st)
    requires a.StartFilter? && PollerStep(env, st, 0, a).Some? && a.sub !in st.subs.sessions
    ensures var st' := PollerStep(env, st, 0, a).value;
            a.sub in st'.subs.sessions ==> RootedIn(env, st', a.sub, st'.subs.sessions[a.sub].since)
  {
    var cp := At(st.pollers[0].checkpoint.value, a.sub);
    assert CopyKept(st.store.registry, st.subs.hwm, st.record.floor, a.sub, cp);
    assert CopyCovered(env, st.record, st.subs.hwm, a.sub, cp);
  }

  lemma RootStart(env: Env, st: State, a: PollerAction)
    requires OneWorkerEach(st) && KeptInv(st) && RootInv(env, st) && Covering(env, st) && Rising(st, Poll(0, a))
    requires a.StartFilter? && PollerStep(env, st, 0, a).Some?
    ensures RootInv(env, PollerStep(env, st, 0, a).value)
  {
    var st' := PollerStep(env, st, 0, a).value;
    forall s, since: nat | RootedIn(env, st, s, since)
      ensures RootedIn(env, st', s, since)
    {
      StartRoots(env, st, a, s, since);
    }
    assert RootsKept(env, st, st');
    SessionsKept(env, st, st', st.subs.sessions);
    if a.sub !in st.subs.sessions { NewRoot(env, st, a); }
    RootFrame(env, st, st');
  }

  lemma CopyRoots(env: Env, st: State, a: PollerAction, s: SubId, since: nat)
    requires OneWorkerEach(st) && KeptInv(st) && !a.StartFilter? && PollerStep(env, st, 0, a).Some?
    requires RootedIn(env, st, s, since)
    ensures RootedIn(env, PollerStep(env, st, 0, a).value, s, since)
  {
    assert st.pollers[0].checkpoint.Some? ==>
      CopyKept(st.store.registry, st.subs.hwm, st.record.floor, s, At(st.pollers[0].checkpoint.value, s));
  }

  lemma RootPoller(env: Env, st: State, w: nat, a: PollerAction)
    requires OneWorkerEach(st) && KeptInv(st) && RootInv(env, st) && Covering(env, st) && Rising(st, Poll(w, a))
    requires PollerStep(env, st, w, a).Some?
    ensures RootInv(env, PollerStep(env, st, w, a).value)
  {
    if a.StartFilter? {
      RootStart(env, st, a);
    } else {
      RootTurn(env, st, a);
    }
  }

  lemma TurnKeepsRoots(env: Env, st: State, a: PollerAction)
    requires OneWorkerEach(st) && KeptInv(st) && !a.StartFilter? && PollerStep(env, st, 0, a).Some?
    ensures RootsKept(env, st, PollerStep(env, st, 0, a).value)
  {
    var st' := PollerStep(env, st, 0, a).value;
    forall s, since: nat | RootedIn(env, st, s, since)
      ensures RootedIn(env, st', s, since)
    {
      CopyRoots(env, st, a, s, since);
    }
    TurnFrame(env, st, 0, a);
  }

  lemma TurnSubs(env: Env, st: State, a: PollerAction)
    requires PollerStep(env, st, 0, a).Some? && !a.StartFilter?
    ensures var st' := PollerStep(env, st, 0, a).value;
            && st'.store.registry == st.store.registry && (forall s :: s in st.record.floor ==>
                 s in st'.record.floor && st'.record.floor[s] == st.record.floor[s])
            && (st'.subs == st.subs
                 || (st'.subs.sessions == map[] && st'.subs.lingering == st.subs.lingering + [st.subs.sessions]))
  {
  }

  lemma RootTurn(env: Env, st: State, a: PollerAction)
    requires OneWorkerEach(st) && KeptInv(st) && RootInv(env, st) && !a.StartFilter? && PollerStep(env, st, 0, a).Some?
    ensures RootInv(env, PollerStep(env, st, 0, a).value)
  {
    var st' := PollerStep(env, st, 0, a).value;
    TurnKeepsRoots(env, st, a);
    TurnSubs(env, st, a);
    SessionsKept(env, st, st', st.subs.sessions);
    RootFrame(env, st, st');
  }

  lemma RootControl(env: Env, st: State, a: ControlAction)
    requires OneWorkerEach(st) && RootInv(env, st) && ControlStep(st, a).Some?
    ensures RootInv(env, ControlStep(st, a).value)
  {
    var st' := ControlStep(st, a).value;
    if !a.Crash? {
      forall s, since: nat | RootedIn(env, st, s, since) ensures RootedIn(env, st', s, since) {}
      assert RootsKept(env, st, st');
      SessionsKept(env, st, st', st.subs.sessions);
      RootFrame(env, st, st');
    }
  }

  lemma RootStep(env: Env, st: State, a: Action)
    requires BlockOrdered(env.source) && HeightInv(env, st) && RootInv(env, st) && Covering(env, st) && Rising(st, a)
    requires Step(env, st, a).Some?
    ensures RootInv(env, Step(env, st, a).value)
  {
    match a {
      case Subscription(s) => RootSubscription(env, st, s);
      case Dispatcher(d) => RootDispatcher(env, st, d);
      case Process(w, p) => RootProcessor(env, st, w, p);
      case Poll(w, l) => RootPoller(env, st, w, l);
      case Control(c) => RootControl(env, st, c);
    }
  }

  // --- the acknowledgement that skips ---

  // An undelivered claimed event between the mark and the acknowledged block.
  ghost predicate Passed(env: Env, st: State, e: Event, i: nat)
    requires e.subId in env.source && i < |env.source[e.subId]|
  {
    var x := env.source[e.subId][i];
    && At(st.subs.hwm, e.subId) <= x.blockNumber <= e.blockNumber && Claimed(st, e.subId, x.blockNumber)
    && x !in st.record.completed
  }

  // A later one of the acknowledged event's block, or one of a batch that was given up or left unattempted.
  ghost predicate Skipped(env: Env, st: State, e: Event, i: nat)
    requires e.subId in env.source && i < |env.source[e.subId]|
  {
    var x := env.source[e.subId][i];
    && Passed(env, st, e, i)
    && ((e.position < i && x.blockNumber == e.blockNumber) || x in st.history.abandoned || x in st.history.unattempted)
  }

  ghost predicate SkipsNone(env: Env, st: State, a: Action) {
    IsAck(st, a) ==>
      var e := st.processors[a.w].calls[a.p.sub];
      e.subId in env.source ==> forall i :: 0 <= i < |env.source[e.subId]| ==> !Skipped(env, st, e, i)
  }

  ghost function Skipping(env: Env): (State, Action) -> bool { (st: State, a: Action) => SkipsNone(env, st, a) }

  lemma NotBelowRoot(env: Env, st: State, s: SubId, since: nat, i: nat)
    requires RootedIn(env, st, s, since) && s in env.source && i < |env.source[s]|
    requires At(st.subs.hwm, s) <= env.source[s][i].blockNumber && Claimed(st, s, env.source[s][i].blockNumber)
    requires env.source[s][i] !in st.record.completed
    ensures since <= env.source[s][i].blockNumber
  {
  }

  lemma RelaysIt(env: Env, before: seq<Event>, s: SubId, since: nat, next: nat, i: nat)
    requires BlockOrdered(env.source) && Relays(env, before, s, since, next) && s in env.source && i < next
    requires i < |env.source[s]| && since <= env.source[s][i].blockNumber
    ensures env.source[s][i] in before
  {
    assert FirstFrom(env.source[s], since) <= i;
  }

  lemma GoneBefore(h: History, k: nat, x: Event)
    requires k <= |h.accepted| && AllGone(h, k) && x in h.accepted[..k]
    ensures Gone(h, x)
  {
    var j :| 0 <= j < k && h.accepted[..k][j] == x;
    assert Gone(h, h.accepted[j]);
  }

  // An undelivered event before an acknowledged one was accepted before it, and has left the pipeline another way.
  lemma LeftOtherwise(env: Env, st: State, e: Event, i: nat)
    requires BlockOrdered(env.source) && RootInv(env, st) && OrderInv(st) && Seen(st.history, e)
    requires e.subId in env.source && i < e.position < |env.source[e.subId]| && Passed(env, st, e, i)
    ensures var x := env.source[e.subId][i]; x in st.history.abandoned || x in st.history.unattempted
  {
    var h, s := st.history, e.subId;
    var k :| 0 <= k < |h.accepted| && h.accepted[k] == e && AllGone(h, k);
    assert EventRooted(env, st, h.accepted[..k], h.accepted[k]);
    var since: nat :| RootedIn(env, st, s, since) && Relays(env, h.accepted[..k], s, since, e.position);
    NotBelowRoot(env, st, s, since, i);
    RelaysIt(env, h.accepted[..k], s, since, e.position, i);
    GoneBefore(h, k, env.source[s][i]);
  }

  lemma PassedLater(env: Env, st: State, known: set<SubId>, e: Event, i: nat)
    requires BlockOrdered(env.source) && FromLedger(env.source, known, e) && e in st.record.completed
    requires e.position <= i < |env.source[e.subId]| && Passed(env, st, e, i)
    ensures Skipped(env, st, e, i)
  {
  }

  lemma PassedIsSkipped(env: Env, st: State, known: set<SubId>, e: Event, i: nat)
    requires BlockOrdered(env.source) && RootInv(env, st) && OrderInv(st) && Seen(st.history, e)
    requires FromLedger(env.source, known, e) && e in st.record.completed && i < |env.source[e.subId]|
    requires Passed(env, st, e, i)
    ensures Skipped(env, st, e, i)
  {
    if i < e.position { LeftOtherwise(env, st, e, i); } else { PassedLater(env, st, known, e, i); }
  }

  lemma NoneSkippedPasses(env: Env, st: State, known: set<SubId>, e: Event)
    requires BlockOrdered(env.source) && RootInv(env, st) && OrderInv(st) && Seen(st.history, e)
    requires FromLedger(env.source, known, e) && e in st.record.completed
    requires forall i :: 0 <= i < |env.source[e.subId]| ==> !Skipped(env, st, e, i)
    ensures PassesNone(env, st, e)
  {
    var events := env.source[e.subId];
    forall i | 0 <= i < |events| && At(st.subs.hwm, e.subId) <= events[i].blockNumber <= e.blockNumber
               && Claimed(st, e.subId, events[i].blockNumber)
      ensures events[i] in st.record.completed
    {
      if Passed(env, st, e, i) { PassedIsSkipped(env, st, known, e, i); }
    }
  }

  lemma SkipDecides(env: Env, st: State, a: Action)
    requires BlockOrdered(env.source) && HeightInv(env, st) && RootInv(env, st) && OrderInv(st)
    ensures SkipsNone(env, st, a) <==> Truthful(env, st, a)
  {
    if IsAck(st, a) {
      AckOrigin(env, Marked(st), st, a.w, a.p.sub);
      assert ProcessorSeen(st.history, st.processors[a.w]);
      if SkipsNone(env, st, a) { NoneSkippedPasses(env, st, Marked(st), st.processors[a.w].calls[a.p.sub]); }
    }
  }

  // --- whole runs ---

  lemma {:induction false} SkipRun(env: Env, actions: seq<Action>)
    requires BlockOrdered(env.source) && MindfulRun(env, actions) && TruthfulRun(env, actions)
    requires Meets(env, Initial(), Risingly(), actions) && Run(env, Initial(), actions).Some?
    ensures RootInv(env, Run(env, Initial(), actions).value) && OrderInv(Run(env, Initial(), actions).value)
  {
    if actions == [] {
      assert Window(Initial().history, [], 0);
    } else {
      var n := |actions| - 1;
      var st := Run(env, Initial(), actions[..n]).value;
      RunPrefixes(env, actions, n);
      SkipRun(env, actions[..n]);
      HeightRun(env, actions[..n]);
      CoverRun(env, actions[..n]);
      assert Risingly()(st, actions[n]);
      RootStep(env, st, actions[n]);
      OrderStep(env, st, actions[n]);
    }
  }

  lemma RunPrefixes(env: Env, actions: seq<Action>, n: nat)
    requires n <= |actions| && MindfulRun(env, actions) && TruthfulRun(env, actions)
    requires Meets(env, Initial(), Risingly(), actions)
    ensures MindfulRun(env, actions[..n]) && TruthfulRun(env, actions[..n])
    ensures Meets(env, Initial(), Risingly(), actions[..n])
  {
    MeetsPrefix(env, Initial(), Mindfully(env), actions, n);
    MeetsPrefix(env, Initial(), Truthfully(env), actions, n);
    MeetsPrefix(env, Initial(), Risingly(), actions, n);
  }

  lemma NextTruthful(env: Env, actions: seq<Action>, n: nat)
    requires BlockOrdered(env.source) && MindfulRun(env, actions) && Meets(env, Initial(), Risingly(), actions)
    requires Meets(env, Initial(), Skipping(env), actions) && n < |actions| && TruthfulRun(env, actions[..n])
    requires Run(env, Initial(), actions[..n]).Some?
    ensures Truthfully(env)(Run(env, Initial(), actions[..n]).value, actions[n])
  {
    MeetsPrefix(env, Initial(), Mindfully(env), actions, n);
    MeetsPrefix(env, Initial(), Risingly(), actions, n);
    SkipRun(env, actions[..n]);
    HeightRun(env, actions[..n]);
    assert Skipping(env)(Run(env, Initial(), actions[..n]).value, actions[n]);
    SkipDecides(env, Run(env, Initial(), actions[..n]).value, actions[n]);
  }

  // Up to the first lie, an acknowledgement that skips nothing tells the truth.
  lemma {:induction false} SkippingTruthful(env: Env, actions: seq<Action>, n: nat)
    requires BlockOrdered(env.source) && MindfulRun(env, actions) && Meets(env, Initial(), Risingly(), actions)
    requires Meets(env, Initial(), Skipping(env), actions) && n <= |actions|
    ensures TruthfulRun(env, actions[..n])
  {
    if n == 0 {
    } else {
      SkippingTruthful(env, actions, n - 1);
      if Run(env, Initial(), actions[..n - 1]).Some? { NextTruthful(env, actions, n - 1); }
      MeetsNext(env, Initial(), Truthfully(env), actions, n - 1);
    }
  }

  // Over every run with any suspensions, in which reported heights do not fall: the acknowledgements tell the truth
  // if and only if none passes an undelivered event of its own block, or of a batch given up or left unattempted.
  lemma SkipsExactly(env: Env, actions: seq<Action>)
    requires BlockOrdered(env.source) && MindfulRun(env, actions) && Meets(env, Initial(), Risingly(), actions)
    ensures Meets(env, Initial(), Skipping(env), actions) <==> TruthfulRun(env, actions)
  {
    if Meets(env, Initial(), Skipping(env), actions) {
      SkippingTruthful(env, actions, |actions|);
      assert actions[..|actions|] == actions;
    }
    if TruthfulRun(env, actions) {
      forall i | 0 <= i < |actions| && Run(env, Initial(), actions[..i]).Some?
        ensures Skipping(env)(Run(env, Initial(), actions[..i]).value, actions[i])
      {
        assert Truthfully(env)(Run(env, Initial(), actions[..i]).value, actions[i]);
      }
    }
  }

  // --- suspensions between batches ---

  // Nothing has been given up or left unattempted since the process started.
  predicate Clean(st: State, a: Action) { st.history.abandoned == [] && st.history.unattempted == [] }

  function Cleanly(): (State, Action) -> bool { (st: State, a: Action) => Clean(st, a) }

  // A ledger with one event per block and subscription survives any suspensions that interrupt no batch.
  lemma CleanSuspensionSafe(env: Env, actions: seq<Action>)
    requires BlockOrdered(env.source) && OneEventPerBlock(env.source) && MindfulRun(env, actions)
    requires Meets(env, Initial(), Risingly(), actions) && Meets(env, Initial(), Cleanly(), actions)
    requires Run(env, Initial(), actions).Some?
    ensures CheckpointSafe(env, Run(env, Initial(), actions).value)
  {
    forall i | 0 <= i < |actions| && Run(env, Initial(), actions[..i]).Some?
      ensures Skipping(env)(Run(env, Initial(), actions[..i]).value, actions[i])
    {
      var st := Run(env, Initial(), actions[..i]).value;
      assert Cleanly()(st, actions[i]);
      MeetsPrefix(env, Initial(), Mindfully(env), actions, i);
      HeightRun(env, actions[..i]);
      AloneSkipsNone(env, st, actions[i]);
    }
    SkipsExactly(env, actions);
    CheckpointSafeRun(env, actions);
  }

  lemma AloneSkipsNone(env: Env, st: State, a: Action)
    requires OneEventPerBlock(env.source) && HeightInv(env, st) && Clean(st, a)
    ensures SkipsNone(env, st, a)
  {
    if IsAck(st, a) { AckOrigin(env, Marked(st), st, a.w, a.p.sub); }
  }
}
