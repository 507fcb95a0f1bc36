/** Where filters are opened: after a restart at the stored height, so that what lies below it is not relayed again. */
module StreamReopen {
  import opened Options
  import opened Ledger
  import opened StreamModel
  import opened StreamConservation
  import opened StreamOrigin
  import opened StreamReach
  import opened StreamHeights

  // --- one filter ---

  // From position `next` on, exactly the events of block `h` and later.
  ghost predicate Divides(src: Source, s: SubId, next: nat, h: nat) {
    s in src ==> next <= |src[s]| && forall j :: 0 <= j < |src[s]| ==> (h <= src[s][j].blockNumber <==> next <= j)
  }

  // The filter of `s` is live exactly if the node took it, and relays exactly what lies at block `h` and later.
  ghost predicate OpenedAt(env: Env, subs: Subs, s: SubId, h: nat, subscribed: bool) {
    && (s in subs.sessions <==> subscribed)
    && (subscribed ==> subs.sessions[s].since == h && Divides(env.source, s, subs.sessions[s].next, h))
  }

  ghost predicate OthersKept(subs: Subs, subs': Subs, s: SubId) {
    && subs'.visible == subs.visible && subs'.lingering == subs.lingering
    && forall t :: t != s ==>
         && At(subs'.hwm, t) == At(subs.hwm, t) && (t in subs'.sessions <==> t in subs.sessions)
         && (t in subs.sessions ==> subs'.sessions[t] == subs.sessions[t])
  }

  // A stored height decides where a filter is opened and what its mark is; only without one does it matter what the
  // subscription asks for. A live filter is left alone.
  lemma ReopensAt(env: Env, st: State, w: nat, s: SubId, height: Option<nat>, subscribed: bool, st': State)
    requires BlockOrdered(env.source) && Step(env, st, Poll(w, StartFilter(s, height, subscribed))) == Some(st')
    ensures w < |st.pollers| && st.pollers[w].checkpoint.Some? && s in st.store.registry
    ensures OthersKept(st.subs, st'.subs, s) && (s in st.subs.sessions ==> st'.subs == st.subs)
    ensures s !in st.subs.sessions ==>
              var h := At(st.pollers[w].checkpoint.value, s);
              if h > 0 then At(st'.subs.hwm, s) == h && OpenedAt(env, st'.subs, s, h, subscribed)
              else
                match st.store.registry[s]
                case Explicit(b) =>
                  At(st'.subs.hwm, s) == At(st.subs.hwm, s) && OpenedAt(env, st'.subs, s, b, subscribed)
                case Unparsable => st'.subs == st.subs
                case Newest =>
                  if height.None? then st'.subs == st.subs
                  else At(st'.subs.hwm, s) == height.value && OpenedAt(env, st'.subs, s, height.value, subscribed)
  {
    if s in st'.subs.sessions && s !in st.subs.sessions {
      FirstDivides(env.source, s, st'.subs.sessions[s].since);
    }
  }

  lemma FirstDivides(src: Source, s: SubId, h: nat)
    requires BlockOrdered(src)
    ensures s in src ==> Divides(src, s, FirstFrom(src[s], h), h)
  {
  }

  // --- what a poll records ---

  // A poll works on its own copy of the checkpoint, on the stored one as long as it has none; it copies each mark, and
  // a store that succeeds leaves exactly the copy behind, if a mark was unset in it or had moved.
  lemma PollRecords(env: Env, st: State, w: nat, a: PollerAction, st': State)
    requires Step(env, st, Poll(w, a)) == Some(st') && !a.ExitPoller?
    ensures w < |st.pollers| == |st'.pollers|
    ensures var p, p' := st.pollers[w], st'.pollers[w];
            match a
            case BeginPoll(loaded) =>
              && st'.store == st.store && st'.subs == st.subs
              && p'.checkpoint == (if p.checkpoint.Some? && p.checkpoint.value != map[] then p.checkpoint
                                   else if loaded then Some(st.store.checkpoint) else None)
              && (p'.phase.Idle? <==> p'.checkpoint.None?)
              && (p'.phase.Starting? ==> p'.phase.todo == st.subs.visible && st.stream.inFlight < env.batchSize)
              && (p'.phase.Copying? ==> p'.phase.todo == st.subs.visible && st.stream.inFlight >= env.batchSize)
            case StartFilter(s, _, _) => st'.store == st.store && p'.checkpoint == p.checkpoint
            case BeginCopy =>
              st'.store == st.store && p'.phase == Copying(p.subs, false) && p'.checkpoint == p.checkpoint
            case CopyMark(s) =>
              && st'.store == st.store && p'.checkpoint.Some? && p.checkpoint.Some? && p.phase.Copying?
              && (forall t :: At(p'.checkpoint.value, t) ==
                              if t == s then At(st.subs.hwm, s) else At(p.checkpoint.value, t))
              && p'.phase == Copying(p.phase.todo - {s},
                                     p.phase.changed || At(p.checkpoint.value, s) == 0
                                     || At(p.checkpoint.value, s) != At(st.subs.hwm, s))
            case EndPoll(stored) =>
              && p.phase.Copying? && p.phase.todo == {} && p'.phase.Idle? && p'.checkpoint == p.checkpoint
              && p.checkpoint.Some?
              && st'.store.registry == st.store.registry
              && st'.store.checkpoint == if p.phase.changed && stored then p.checkpoint.value else st.store.checkpoint
  {
  }

  // A poller that leaves unregisters every filter; their relays still have what they had been given.
  lemma PollerLeft(env: Env, st: State, w: nat, st': State)
    requires Step(env, st, Poll(w, ExitPoller)) == Some(st')
    ensures st'.store == st.store && st'.stream == st.stream.(pollerDone := true)
    ensures st'.subs == st.subs.(sessions := map[], lingering := st.subs.lingering + [st.subs.sessions])
    ensures st.stream.SuspendOrStop() && w < |st.pollers| && st.pollers[w].phase.Idle?
    ensures |st'.pollers| == |st.pollers| - 1
  {
  }

  // --- a whole process ---

  // A poll begun now would copy the unset mark of `s` over its stored height: it opens no filter first.
  predicate Overlooks(env: Env, st: State, s: SubId) {
    st.stream.IsBlocked(env.batchSize) && s in st.subs.visible && At(st.subs.hwm, s) == 0
  }

  predicate Watchful(env: Env, s: SubId, st: State, a: Action) {
    && !(a.Control? && a.c.Crash?)
    && (a.Poll? && a.l.BeginPoll? ==> !Overlooks(env, st, s))
  }

  function Watchfully(env: Env, s: SubId): (State, Action) -> bool {
    (st: State, a: Action) => Watchful(env, s, st, a)
  }

  // What a filter of `s` still has to relay lies at block `h` and later.
  ghost predicate RelaysFrom(env: Env, sessions: map<SubId, Session>, s: SubId, h: nat) {
    s in sessions && s in env.source ==>
      forall j :: sessions[s].next <= j < |env.source[s]| ==> h <= env.source[s][j].blockNumber
  }

  ghost predicate SubsHeld(env: Env, subs: Subs, s: SubId, h: nat) {
    && (s in subs.sessions ==> h <= At(subs.hwm, s)) && RelaysFrom(env, subs.sessions, s, h)
    && forall k :: 0 <= k < |subs.lingering| ==> RelaysFrom(env, subs.lingering[k], s, h)
  }

  ghost predicate PollersHeld(pollers: seq<Poller>, hwm: Marks, s: SubId, h: nat) {
    && (forall w :: 0 <= w < |pollers| && pollers[w].checkpoint.Some? ==> h <= At(pollers[w].checkpoint.value, s))
    && (forall w :: 0 <= w < |pollers| ==> At(hwm, s) < h ==> Comes(pollers[w], s))
  }

  // Until its mark is set, no event of `s` is anywhere in the stream.
  ghost predicate Unset(env: Env, st: State, s: SubId) {
    At(st.subs.hwm, s) == 0 && OriginInv(env, st.store.registry.Keys - {s}, st)
  }

  ghost predicate Held(env: Env, st: State, s: SubId, h: nat) {
    && h <= At(st.store.checkpoint, s) && PollersHeld(st.pollers, st.subs.hwm, s, h) && SubsHeld(env, st.subs, s, h)
    && (At(st.subs.hwm, s) < h ==> Unset(env, st, s))
    && forall e :: e in st.history.accepted && e.subId == s ==> h <= e.blockNumber
  }

  lemma HeldDispatcher(env: Env, st: State, s: SubId, h: nat, a: DispatcherAction)
    requires BlockOrdered(env.source) && Held(env, st, s, h) && DispatcherStep(env, st, a).Some?
    ensures Held(env, DispatcherStep(env, st, a).value, s, h)
  {
    if At(st.subs.hwm, s) < h { OriginDispatcher(env, st.store.registry.Keys - {s}, st, a); }
  }

  lemma HeldProcessor(env: Env, st: State, s: SubId, h: nat, w: nat, a: ProcessorAction)
    requires OneWorkerEach(st) && Held(env, st, s, h) && ProcessorStep(env, st, w, a).Some?
    ensures Held(env, ProcessorStep(env, st, w, a).value, s, h)
  {
    if At(st.subs.hwm, s) < h {
      OriginProcessor(env, st.store.registry.Keys - {s}, st, w, a);
      if a.Ack? { AckOrigin(env, st.store.registry.Keys - {s}, st, w, a.sub); }
    }
  }

  lemma HeldStart(env: Env, st: State, s: SubId, h: nat, w: nat, a: PollerAction)
    requires BlockOrdered(env.source) && h > 0 && Held(env, st, s, h) && a.StartFilter?
    requires PollerStep(env, st, w, a).Some?
    ensures Held(env, PollerStep(env, st, w, a).value, s, h)
  {
    var st' := PollerStep(env, st, w, a).value;
    ReopensAt(env, st, w, a.sub, a.height, a.subscribed, st');
    if At(st'.subs.hwm, s) < h { OriginPoller(env, st.store.registry.Keys - {s}, st, w, a); }
  }

  lemma HeldPoller(env: Env, st: State, s: SubId, h: nat, w: nat, a: PollerAction)
    requires BlockOrdered(env.source) && h > 0 && Held(env, st, s, h)
    requires a.BeginPoll? ==> !Overlooks(env, st, s)
    requires PollerStep(env, st, w, a).Some?
    ensures Held(env, PollerStep(env, st, w, a).value, s, h)
  {
    if a.StartFilter? {
      HeldStart(env, st, s, h, w, a);
    } else if At(st.subs.hwm, s) < h {
      OriginPoller(env, st.store.registry.Keys - {s}, st, w, a);
    }
  }

  lemma HeldStep(env: Env, st: State, s: SubId, h: nat, a: Action)
    requires BlockOrdered(env.source) && OneWorkerEach(st) && h > 0 && Held(env, st, s, h)
    requires Watchful(env, s, st, a) && Step(env, st, a).Some?
    ensures Held(env, Step(env, st, a).value, s, h)
  {
    match a {
      case Subscription(x) =>
        var st' := Step(env, st, a).value;
        if At(st.subs.hwm, s) < h {
          OriginMore(env, st.store.registry.Keys - {s}, st'.store.registry.Keys - {s}, st);
        }
      case Dispatcher(d) => HeldDispatcher(env, st, s, h, d);
      case Process(w, p) => HeldProcessor(env, st, s, h, w, p);
      case Poll(w, l) => HeldPoller(env, st, s, h, w, l);
      case Control(c) =>
        if At(st.subs.hwm, s) < h { OriginControl(env, st.store.registry.Keys - {s}, st, c); }
    }
  }

  // A process that begins with a stored height.
  lemma HeldBoot(env: Env, suspended: bool, store: Store, record: Record, s: SubId)
    ensures var st := Boot(suspended, store, record);
            Held(env, st, s, At(store.checkpoint, s)) && StreamInv(env, st) && Accounted(st)
  {
  }

  lemma {:induction false} HeldRun(env: Env, st: State, s: SubId, h: nat, actions: seq<Action>)
    requires BlockOrdered(env.source) && StreamInv(env, st) && Accounted(st) && Held(env, st, s, h) && h > 0
    requires Meets(env, st, Watchfully(env, s), actions) && Run(env, st, actions).Some?
    ensures var st' := Run(env, st, actions).value; StreamInv(env, st') && Accounted(st') && Held(env, st', s, h)
  {
    if actions == [] {
    } else {
      var n := |actions| - 1;
      MeetsPrefix(env, st, Watchfully(env, s), actions, n);
      HeldRun(env, st, s, h, actions[..n]);
      assert Watchfully(env, s)(Run(env, st, actions[..n]).value, actions[n]);
      StreamInvStep(env, Run(env, st, actions[..n]).value, actions[n]);
      HeldStep(env, Run(env, st, actions[..n]).value, s, h, actions[n]);
    }
  }

  // After a crash in any state, the new process takes in nothing that the stored height covers and never stores a
  // lower one, however often it is suspended and resumed, as long as no poll overlooks the subscription.
  lemma NothingRedelivered(env: Env, st: State, suspended: bool, actions: seq<Action>, s: SubId, st': State)
    requires BlockOrdered(env.source)
    requires var crashed := Step(env, st, Control(Crash(suspended))).value;
             Meets(env, crashed, Watchfully(env, s), actions) && Run(env, crashed, actions) == Some(st')
    ensures At(st.store.checkpoint, s) <= At(st'.store.checkpoint, s)
    ensures forall e :: e in st'.history.accepted && e.subId == s ==> At(st.store.checkpoint, s) <= e.blockNumber
  {
    if At(st.store.checkpoint, s) > 0 {
      var crashed := Step(env, st, Control(Crash(suspended))).value;
      HeldBoot(env, suspended, st.store, st.record, s);
      HeldRun(env, crashed, s, At(st.store.checkpoint, s), actions);
    }
  }

  // --- exactly which poll overlooks ---

  lemma {:induction false} HeldRound(env: Env, st: State, s: SubId, h: nat, during: seq<Action>)
    requires BlockOrdered(env.source) && StreamInv(env, st) && Accounted(st) && Held(env, st, s, h) && h > 0
    requires Run(env, st, during).Some? && forall i :: 0 <= i < |during| ==> SameRound(during[i])
    ensures Held(env, Run(env, st, during).value, s, h) && OneWorkerEach(Run(env, st, during).value)
  {
    forall i | 0 <= i < |during| && Run(env, st, during[..i]).Some?
      ensures Watchfully(env, s)(Run(env, st, during[..i]).value, during[i])
    {
      assert SameRound(during[i]);
    }
    HeldRun(env, st, s, h, during);
  }

  lemma OverlookedRound(env: Env, st: State, s: SubId, h: nat, loaded: bool, during: seq<Action>, begun: State,
                        ended: State)
    requires BlockOrdered(env.source) && StreamInv(env, st) && Accounted(st) && Held(env, st, s, h) && h > 0
    requires Overlooks(env, st, s) && Step(env, st, Poll(0, BeginPoll(loaded))) == Some(begun)
    requires begun.pollers != [] && begun.pollers[0].checkpoint.Some?
    requires Run(env, begun, during).Some? && forall i :: 0 <= i < |during| ==> SameRound(during[i])
    requires Step(env, Run(env, begun, during).value, Poll(0, EndPoll(true))) == Some(ended)
    ensures At(ended.store.checkpoint, s) == 0
  {
    var known := st.store.registry.Keys - {s};
    StreamInvStep(env, st, Poll(0, BeginPoll(loaded)));
    OriginStep(env, known, st, Poll(0, BeginPoll(loaded)));
    assert Losing(begun, s);
    LosingRound(env, begun, s, known, during);
    LosingEnds(env, Run(env, begun, during).value, s);
  }

  lemma WatchedRound(env: Env, st: State, s: SubId, h: nat, loaded: bool, during: seq<Action>, begun: State,
                     ended: State)
    requires BlockOrdered(env.source) && StreamInv(env, st) && Accounted(st) && Held(env, st, s, h) && h > 0
    requires !Overlooks(env, st, s) && Step(env, st, Poll(0, BeginPoll(loaded))) == Some(begun)
    requires Run(env, begun, during).Some? && forall i :: 0 <= i < |during| ==> SameRound(during[i])
    requires Step(env, Run(env, begun, during).value, Poll(0, EndPoll(true))) == Some(ended)
    ensures h <= At(ended.store.checkpoint, s)
  {
    StreamInvStep(env, st, Poll(0, BeginPoll(loaded)));
    HeldStep(env, st, s, h, Poll(0, BeginPoll(loaded)));
    HeldRound(env, begun, s, h, during);
    HeldStep(env, Run(env, begun, during).value, s, h, Poll(0, EndPoll(true)));
  }

  // Up to the first poll that overlooks the subscription, a poll that got its checkpoint and stores it, whatever else
  // goes on meanwhile, keeps the height the process began with if and only if it does not overlook it.
  lemma HeightHeldExactly(env: Env, store: Store, record: Record, suspended: bool, before: seq<Action>, s: SubId,
                          st: State, loaded: bool, during: seq<Action>, begun: State, ended: State)
    requires BlockOrdered(env.source) && At(store.checkpoint, s) > 0
    requires Meets(env, Boot(suspended, store, record), Watchfully(env, s), before)
    requires Run(env, Boot(suspended, store, record), before) == Some(st)
    requires Step(env, st, Poll(0, BeginPoll(loaded))) == Some(begun)
    requires begun.pollers != [] && begun.pollers[0].checkpoint.Some?
    requires Run(env, begun, during).Some? && forall i :: 0 <= i < |during| ==> SameRound(during[i])
    requires Step(env, Run(env, begun, during).value, Poll(0, EndPoll(true))) == Some(ended)
    ensures At(store.checkpoint, s) <= At(ended.store.checkpoint, s) <==> !Overlooks(env, st, s)
  {
    var h := At(store.checkpoint, s);
    HeldBoot(env, suspended, store, record, s);
    HeldRun(env, Boot(suspended, store, record), s, h, before);
    if Overlooks(env, st, s) {
      OverlookedRound(env, st, s, h, loaded, during, begun, ended);
    } else {
      WatchedRound(env, st, s, h, loaded, during, begun, ended);
    }
  }
}
