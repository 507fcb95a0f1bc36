/** Which polls forget a height, and what every run without one keeps of marks, copies and stored heights, with any
    suspensions, resumes, stops and crashes. */
module StreamHeights {
  import opened Options
  import opened Ledger
  import opened StreamModel
  import opened StreamConservation
  import opened StreamOrigin
  import opened StreamReach

  predicate Explicitly(registry: map<SubId, FromBlock>, s: SubId) {
    s in registry && registry[s].Explicit?
  }

  // A mark that must be set before it is copied over the stored height.
  predicate NeedsMark(store: Store, hwm: Marks, floor: map<SubId, nat>, s: SubId) {
    s in floor && !Explicitly(store.registry, s) && At(hwm, s) == 0
  }

  // A poll begun now would copy such a mark: it is blocked, so it opens no filter first.
  ghost predicate Forgets(env: Env, st: State) {
    && st.stream.IsBlocked(env.batchSize)
    && exists s :: s in st.subs.visible && NeedsMark(st.store, st.subs.hwm, st.record.floor, s)
  }

  // No poll forgets a height; everything else is free.
  ghost predicate Mindful(env: Env, st: State, a: Action) { a.Poll? && a.l.BeginPoll? ==> !Forgets(env, st) }

  ghost function Mindfully(env: Env): (State, Action) -> bool { (st: State, a: Action) => Mindful(env, st, a) }

  ghost predicate MindfulRun(env: Env, actions: seq<Action>) { Meets(env, Initial(), Mindfully(env), actions) }

  // --- the invariant, in parts that each name the components they constrain ---

  ghost predicate KnownKeys(known: set<SubId>, subs: Subs, checkpoint: Marks, floor: map<SubId, nat>,
                            pollers: seq<Poller>) {
    && subs.visible <= known && subs.sessions.Keys <= known && subs.hwm.Keys <= known
    && checkpoint.Keys <= known && floor.Keys <= known
    && (forall w :: 0 <= w < |pollers| ==> pollers[w].subs <= known && pollers[w].phase.Todo() <= known)
    && (forall w :: 0 <= w < |pollers| && pollers[w].checkpoint.Some? ==> pollers[w].checkpoint.value.Keys <= known)
  }

  // Every claimed "newest" subscription has a stored height.
  ghost predicate HeightsKept(store: Store, floor: map<SubId, nat>) {
    forall s :: s in floor && !Explicitly(store.registry, s) ==> At(store.checkpoint, s) > 0
  }

  // Where a poll stands with a mark that is still to be set: its filter comes before its copy.
  ghost predicate Comes(p: Poller, s: SubId) {
    match p.phase
    case Idle => true
    case Starting(todo) => s in p.subs ==> s in todo
    case Copying(todo, _) => s !in todo
  }

  ghost predicate Primed(store: Store, subs: Subs, floor: map<SubId, nat>, pollers: seq<Poller>) {
    && (forall s :: NeedsMark(store, subs.hwm, floor, s) ==> s !in subs.sessions)
    && (forall w, s :: 0 <= w < |pollers| && NeedsMark(store, subs.hwm, floor, s) ==> Comes(pollers[w], s))
    && (forall w :: 0 <= w < |pollers| ==> pollers[w].phase.Todo() <= pollers[w].subs)
  }

  // A height in a poller's copy: positive once a claim rests on it; before that, a mark that was set.
  ghost predicate CopyKept(registry: map<SubId, FromBlock>, hwm: Marks, floor: map<SubId, nat>, s: SubId, height: nat) {
    if s in floor then Explicitly(registry, s) || height > 0 else height <= At(hwm, s)
  }

  ghost predicate CopiesKept(registry: map<SubId, FromBlock>, hwm: Marks, floor: map<SubId, nat>,
                             pollers: seq<Poller>) {
    forall w, s :: 0 <= w < |pollers| && pollers[w].checkpoint.Some? ==>
        CopyKept(registry, hwm, floor, s, At(pollers[w].checkpoint.value, s))
  }

  ghost predicate KeptInv(st: State) {
    && KnownKeys(st.store.registry.Keys, st.subs, st.store.checkpoint, st.record.floor, st.pollers)
    && HeightsKept(st.store, st.record.floor)
    && (forall s :: At(st.store.checkpoint, s) > 0 ==> s in st.record.floor)
    && CopiesKept(st.store.registry, st.subs.hwm, st.record.floor, st.pollers)
    && Primed(st.store, st.subs, st.record.floor, st.pollers)
  }

  // The subscriptions whose mark may be copied: events come from these alone.
  function Marked(st: State): set<SubId> {
    set s | s in st.store.registry && !NeedsMark(st.store, st.subs.hwm, st.record.floor, s)
  }

  // --- steps ---

  lemma SubscriptionKept(st: State, a: SubscriptionAction)
    requires KeptInv(st) && SubscriptionStep(st, a).Some?
    ensures KeptInv(SubscriptionStep(st, a).value)
  {
    var st' := SubscriptionStep(st, a).value;
    assert st'.store.registry.Keys == st.store.registry.Keys + {a.sub};
    forall s | NeedsMark(st'.store, st'.subs.hwm, st'.record.floor, s)
      ensures NeedsMark(st.store, st.subs.hwm, st.record.floor, s) {}
    forall w, s | 0 <= w < |st.pollers| && st.pollers[w].checkpoint.Some?
      ensures CopyKept(st'.store.registry, st'.subs.hwm, st'.record.floor, s, At(st.pollers[w].checkpoint.value, s))
    {
      assert CopyKept(st.store.registry, st.subs.hwm, st.record.floor, s, At(st.pollers[w].checkpoint.value, s));
    }
  }

  // Marks may rise, of known subscriptions, and filters move on.
  lemma RaisedKept(st: State, subs: Subs)
    requires KeptInv(st) && subs.visible == st.subs.visible && subs.sessions.Keys == st.subs.sessions.Keys
    requires subs.hwm.Keys <= st.store.registry.Keys && forall s :: At(st.subs.hwm, s) <= At(subs.hwm, s)
    ensures KeptInv(st.(subs := subs))
  {
    forall w, s | 0 <= w < |st.pollers| && st.pollers[w].checkpoint.Some?
      ensures CopyKept(st.store.registry, subs.hwm, st.record.floor, s, At(st.pollers[w].checkpoint.value, s))
    {
      assert CopyKept(st.store.registry, st.subs.hwm, st.record.floor, s, At(st.pollers[w].checkpoint.value, s));
    }
    forall s | NeedsMark(st.store, subs.hwm, st.record.floor, s)
      ensures NeedsMark(st.store, st.subs.hwm, st.record.floor, s) {}
  }

  lemma DispatcherKept(env: Env, st: State, a: DispatcherAction)
    requires KeptInv(st) && DispatcherStep(env, st, a).Some?
    ensures KeptInv(DispatcherStep(env, st, a).value)
  {
    RaisedKept(st, DispatcherStep(env, st, a).value.subs);
  }

  lemma ProcessorKept(env: Env, st: State, w: nat, a: ProcessorAction)
    requires OriginInv(env, Marked(st), st) && KeptInv(st) && ProcessorStep(env, st, w, a).Some?
    ensures KeptInv(ProcessorStep(env, st, w, a).value)
  {
    var st' := ProcessorStep(env, st, w, a).value;
    assert st'.store == st.store && st'.pollers == st.pollers && st'.record.floor == st.record.floor;
    RaisedKept(st, st'.subs);
  }

  lemma BeginPollKept(env: Env, st: State, loaded: bool)
    requires OneWorkerEach(st) && KeptInv(st) && !Forgets(env, st) && PollerStep(env, st, 0, BeginPoll(loaded)).Some?
    ensures KeptInv(PollerStep(env, st, 0, BeginPoll(loaded)).value)
  {
    var st' := PollerStep(env, st, 0, BeginPoll(loaded)).value;
    forall w, s | 0 <= w < |st'.pollers| && st'.pollers[w].checkpoint.Some?
      ensures CopyKept(st.store.registry, st.subs.hwm, st.record.floor, s, At(st'.pollers[w].checkpoint.value, s))
    {
      assert st.pollers[0].checkpoint.Some? ==>
        CopyKept(st.store.registry, st.subs.hwm, st.record.floor, s, At(st.pollers[0].checkpoint.value, s));
    }
  }

  lemma SameCopiesKept(registry: map<SubId, FromBlock>, hwm: Marks, floor: map<SubId, nat>, pollers: seq<Poller>,
                       pollers': seq<Poller>)
    requires CopiesKept(registry, hwm, floor, pollers) && |pollers| == |pollers'|
    requires forall w :: 0 <= w < |pollers| ==> pollers[w].checkpoint == pollers'[w].checkpoint
    ensures CopiesKept(registry, hwm, floor, pollers')
  {
  }

  lemma StartKeepsCopies(env: Env, store: Store, subs: Subs, floor: map<SubId, nat>, pollers: seq<Poller>, s: SubId,
                         height: Option<nat>, subscribed: bool)
    requires CopiesKept(store.registry, subs.hwm, floor, pollers) && s in store.registry && |pollers| == 1
    requires pollers[0].checkpoint.Some?
    ensures var o := OpeningOf(store.registry[s], At(pollers[0].checkpoint.value, s), height);
            CopiesKept(store.registry, Start(env, subs, s, o, subscribed).hwm, floor, pollers)
  {
    var cp := pollers[0].checkpoint.value;
    var subs' := Start(env, subs, s, OpeningOf(store.registry[s], At(cp, s), height), subscribed);
    forall w, t | 0 <= w < |pollers|
      ensures CopyKept(store.registry, subs'.hwm, floor, t, At(pollers[w].checkpoint.value, t))
    {
      assert CopyKept(store.registry, subs.hwm, floor, t, At(cp, t));
    }
  }

  lemma StartPrimed(env: Env, st: State, a: PollerAction)
    requires |st.pollers| == 1 && a.StartFilter? && PollerStep(env, st, 0, a).Some?
    requires Primed(st.store, st.subs, st.record.floor, st.pollers)
    requires CopyKept(st.store.registry, st.subs.hwm, st.record.floor, a.sub, At(st.pollers[0].checkpoint.value, a.sub))
    ensures var st' := PollerStep(env, st, 0, a).value; Primed(st'.store, st'.subs, st'.record.floor, st'.pollers)
  {
    var st' := PollerStep(env, st, 0, a).value;
    forall t | NeedsMark(st'.store, st'.subs.hwm, st'.record.floor, t)
      ensures NeedsMark(st.store, st.subs.hwm, st.record.floor, t) && t != a.sub {}
  }

  lemma StartKept(env: Env, st: State, a: PollerAction)
    requires OneWorkerEach(st) && KeptInv(st) && a.StartFilter? && PollerStep(env, st, 0, a).Some?
    ensures KeptInv(PollerStep(env, st, 0, a).value)
  {
    var st', cp := PollerStep(env, st, 0, a).value, st.pollers[0].checkpoint.value;
    assert CopyKept(st.store.registry, st.subs.hwm, st.record.floor, a.sub, At(cp, a.sub));
    StartKeepsCopies(env, st.store, st.subs, st.record.floor, st.pollers, a.sub, a.height, a.subscribed);
    SameCopiesKept(st'.store.registry, st'.subs.hwm, st'.record.floor, st.pollers, st'.pollers);
    StartPrimed(env, st, a);
  }

  lemma CopyKeepsCopies(store: Store, hwm: Marks, floor: map<SubId, nat>, p: Poller, s: SubId)
    requires CopiesKept(store.registry, hwm, floor, [p]) && p.checkpoint.Some? && !NeedsMark(store, hwm, floor, s)
    ensures CopiesKept(store.registry, hwm, floor, [p.(checkpoint := Some(p.checkpoint.value[s := At(hwm, s)]))])
  {
    var p' := p.(checkpoint := Some(p.checkpoint.value[s := At(hwm, s)]));
    forall w, t | 0 <= w < |[p']| ensures CopyKept(store.registry, hwm, floor, t, At([p'][w].checkpoint.value, t)) {
      assert CopyKept(store.registry, hwm, floor, t, At([p][0].checkpoint.value, t));
    }
  }

  lemma CopyKeeps(env: Env, st: State, a: PollerAction)
    requires OneWorkerEach(st) && KeptInv(st) && PollerStep(env, st, 0, a).Some? && (a.BeginCopy? || a.CopyMark?)
    ensures KeptInv(PollerStep(env, st, 0, a).value)
  {
    var st', p := PollerStep(env, st, 0, a).value, st.pollers[0];
    if a.CopyMark? {
      assert st.pollers == [p];
      assert Comes(p, a.sub) || !NeedsMark(st.store, st.subs.hwm, st.record.floor, a.sub);
      CopyKeepsCopies(st.store, st.subs.hwm, st.record.floor, p, a.sub);
      SameCopiesKept(st.store.registry, st.subs.hwm, st.record.floor,
                     [p.(checkpoint := Some(p.checkpoint.value[a.sub := At(st.subs.hwm, a.sub)]))], st'.pollers);
    } else {
      SameCopiesKept(st.store.registry, st.subs.hwm, st.record.floor, st.pollers, st'.pollers);
    }
  }

  // Storing a checkpoint may begin a claim, of a subscription whose mark is set.
  lemma StoredFacts(store: Store, hwm: Marks, floor: map<SubId, nat>, p: Poller, s: SubId)
    requires HeightsKept(store, floor) && CopiesKept(store.registry, hwm, floor, [p]) && p.checkpoint.Some?
    ensures var cp, floor' := p.checkpoint.value, Floors(floor, p.checkpoint.value);
            && CopyKept(store.registry, hwm, floor', s, At(cp, s))
            && (At(cp, s) > 0 ==> s in floor') && (s in floor' && !Explicitly(store.registry, s) ==> At(cp, s) > 0)
            && (NeedsMark(store, hwm, floor', s) ==> NeedsMark(store, hwm, floor, s))
  {
    assert CopyKept(store.registry, hwm, floor, s, At([p][0].checkpoint.value, s));
  }

  lemma StoreKeeps(env: Env, st: State, stored: bool)
    requires OneWorkerEach(st) && KeptInv(st) && PollerStep(env, st, 0, EndPoll(stored)).Some?
    ensures KeptInv(PollerStep(env, st, 0, EndPoll(stored)).value)
  {
    var st', p := PollerStep(env, st, 0, EndPoll(stored)).value, st.pollers[0];
    assert st.pollers == [p] && st'.pollers == [p.(phase := Idle)];
    if p.phase.changed && stored {
      forall s
        ensures CopyKept(st.store.registry, st.subs.hwm, st'.record.floor, s, At(p.checkpoint.value, s))
        ensures At(p.checkpoint.value, s) > 0 ==> s in st'.record.floor
        ensures s in st'.record.floor && !Explicitly(st.store.registry, s) ==> At(p.checkpoint.value, s) > 0
        ensures NeedsMark(st'.store, st.subs.hwm, st'.record.floor, s) ==>
                  NeedsMark(st.store, st.subs.hwm, st.record.floor, s)
      {
        StoredFacts(st.store, st.subs.hwm, st.record.floor, p, s);
      }
    }
    SameCopiesKept(st'.store.registry, st'.subs.hwm, st'.record.floor, [p], st'.pollers);
  }

  lemma PollerKept(env: Env, st: State, w: nat, a: PollerAction)
    requires OneWorkerEach(st) && KeptInv(st) && Mindful(env, st, Poll(w, a)) && PollerStep(env, st, w, a).Some?
    ensures KeptInv(PollerStep(env, st, w, a).value)
  {
    match a {
      case BeginPoll(loaded) => BeginPollKept(env, st, loaded);
      case StartFilter(_, _, _) => StartKept(env, st, a);
      case BeginCopy => CopyKeeps(env, st, a);
      case CopyMark(_) => CopyKeeps(env, st, a);
      case EndPoll(stored) => StoreKeeps(env, st, stored);
      case ExitPoller =>
    }
  }

  lemma ControlKept(env: Env, st: State, a: ControlAction)
    requires OneWorkerEach(st) && KeptInv(st) && ControlStep(st, a).Some?
    ensures KeptInv(ControlStep(st, a).value)
  {
  }

  lemma KeptStep(env: Env, st: State, a: Action)
    requires OneWorkerEach(st) && OriginInv(env, Marked(st), st) && KeptInv(st) && Mindful(env, st, a)
    requires Step(env, st, a).Some?
    ensures KeptInv(Step(env, st, a).value)
  {
    match a {
      case Subscription(s) => SubscriptionKept(st, s);
      case Dispatcher(d) => DispatcherKept(env, st, d);
      case Process(w, p) => ProcessorKept(env, st, w, p);
      case Poll(w, l) => PollerKept(env, st, w, l);
      case Control(c) => ControlKept(env, st, c);
    }
  }

  // --- no mark comes to be needed ---

  lemma StartMarks(env: Env, st: State, a: PollerAction, s: SubId)
    requires OneWorkerEach(st) && KeptInv(st) && a.StartFilter? && PollerStep(env, st, 0, a).Some?
    requires var st' := PollerStep(env, st, 0, a).value; NeedsMark(st'.store, st'.subs.hwm, st'.record.floor, s)
    ensures NeedsMark(st.store, st.subs.hwm, st.record.floor, s) && s != a.sub
  {
    assert CopyKept(st.store.registry, st.subs.hwm, st.record.floor, a.sub, At(st.pollers[0].checkpoint.value, a.sub));
  }

  lemma PollerMarks(env: Env, st: State, w: nat, a: PollerAction, s: SubId)
    requires OneWorkerEach(st) && KeptInv(st) && PollerStep(env, st, w, a).Some?
    requires var st' := PollerStep(env, st, w, a).value; NeedsMark(st'.store, st'.subs.hwm, st'.record.floor, s)
    ensures NeedsMark(st.store, st.subs.hwm, st.record.floor, s) && (a.StartFilter? ==> s != a.sub)
  {
    if a.StartFilter? {
      StartMarks(env, st, a, s);
    } else if a.EndPoll? {
      assert st.pollers == [st.pollers[0]];
      StoredFacts(st.store, st.subs.hwm, st.record.floor, st.pollers[0], s);
    }
  }

  lemma NeededBefore(env: Env, st: State, a: Action, s: SubId)
    requires OneWorkerEach(st) && KeptInv(st) && Step(env, st, a).Some? && !(a.Control? && a.c.Crash?)
    requires var st' := Step(env, st, a).value; NeedsMark(st'.store, st'.subs.hwm, st'.record.floor, s)
    ensures NeedsMark(st.store, st.subs.hwm, st.record.floor, s) && (a.Poll? && a.l.StartFilter? ==> s != a.l.sub)
  {
    if a.Poll? { PollerMarks(env, st, a.w, a.l, s); }
  }

  lemma MarkedOrigin(env: Env, st: State, a: Action)
    requires BlockOrdered(env.source) && OneWorkerEach(st) && OriginInv(env, Marked(st), st) && KeptInv(st)
    requires Step(env, st, a).Some?
    ensures OriginInv(env, Marked(Step(env, st, a).value), Step(env, st, a).value)
  {
    var st' := Step(env, st, a).value;
    if !(a.Control? && a.c.Crash?) {
      forall s | NeedsMark(st'.store, st'.subs.hwm, st'.record.floor, s)
        ensures NeedsMark(st.store, st.subs.hwm, st.record.floor, s) && (a.Poll? && a.l.StartFilter? ==> s != a.l.sub)
      {
        NeededBefore(env, st, a, s);
      }
      assert st.store.registry.Keys <= st'.store.registry.Keys;
      OriginMore(env, Marked(st), Marked(st'), st);
      OriginStep(env, Marked(st'), st, a);
    }
  }

  // --- whole runs ---

  ghost predicate HeightInv(env: Env, st: State) {
    StreamInv(env, st) && Accounted(st) && OriginInv(env, Marked(st), st) && KeptInv(st)
  }

  lemma HeightStep(env: Env, st: State, a: Action)
    requires BlockOrdered(env.source) && HeightInv(env, st) && Mindful(env, st, a) && Step(env, st, a).Some?
    ensures HeightInv(env, Step(env, st, a).value)
  {
    StreamInvStep(env, st, a);
    KeptStep(env, st, a);
    MarkedOrigin(env, st, a);
  }

  lemma OriginStart(env: Env)
    ensures OriginInv(env, Marked(Initial()), Initial())
  {
  }

  lemma HeightStart(env: Env)
    ensures HeightInv(env, Initial())
  {
    OriginStart(env);
  }

  lemma {:induction false} HeightRun(env: Env, actions: seq<Action>)
    requires BlockOrdered(env.source) && MindfulRun(env, actions) && Run(env, Initial(), actions).Some?
    ensures HeightInv(env, Run(env, Initial(), actions).value)
  {
    if actions == [] {
      HeightStart(env);
    } else {
      var n := |actions| - 1;
      MeetsPrefix(env, Initial(), Mindfully(env), actions, n);
      HeightRun(env, actions[..n]);
      assert Mindfully(env)(Run(env, Initial(), actions[..n]).value, actions[n]);
      HeightStep(env, Run(env, Initial(), actions[..n]).value, actions[n]);
    }
  }

  // --- exactly which poll forgets ---

  // The rest of a poll's round: no crash, and no other poll begins.
  predicate SameRound(a: Action) {
    && (a.Control? ==> !a.c.Crash?)
    && (a.Poll? ==> !a.l.BeginPoll?)
  }

  lemma {:induction false} RoundKeeps(env: Env, st: State, actions: seq<Action>)
    requires BlockOrdered(env.source) && HeightInv(env, st)
    requires Run(env, st, actions).Some? && forall i :: 0 <= i < |actions| ==> SameRound(actions[i])
    ensures HeightInv(env, Run(env, st, actions).value)
  {
    if actions == [] {
    } else {
      var n := |actions| - 1;
      RoundKeeps(env, st, actions[..n]);
      HeightStep(env, Run(env, st, actions[..n]).value, actions[n]);
    }
  }

  // The mark of `s` is about to be copied unset, or has been.
  ghost predicate Losing(st: State, s: SubId) {
    && At(st.subs.hwm, s) == 0
    && |st.pollers| == 1 && st.pollers[0].phase.Copying? && st.pollers[0].checkpoint.Some?
    && (s in st.pollers[0].phase.todo || (At(st.pollers[0].checkpoint.value, s) == 0 && st.pollers[0].phase.changed))
  }

  ghost predicate RoundOver(st: State) {
    |st.pollers| <= 1 && forall w :: 0 <= w < |st.pollers| ==> st.pollers[w].phase.Idle?
  }

  // No event of `s` is anywhere in the stream.
  ghost predicate Elsewhere(env: Env, s: SubId, known: set<SubId>, st: State) {
    StreamInv(env, st) && Accounted(st) && OriginInv(env, known, st) && s !in known
  }

  lemma LosingPoll(env: Env, st: State, s: SubId, w: nat, a: PollerAction)
    requires OneWorkerEach(st) && (Losing(st, s) || RoundOver(st)) && !a.BeginPoll? && PollerStep(env, st, w, a).Some?
    ensures Losing(PollerStep(env, st, w, a).value, s) || RoundOver(PollerStep(env, st, w, a).value)
  {
  }

  lemma LosingStep(env: Env, st: State, s: SubId, known: set<SubId>, a: Action)
    requires BlockOrdered(env.source) && Elsewhere(env, s, known, st) && (Losing(st, s) || RoundOver(st))
    requires SameRound(a) && Step(env, st, a).Some?
    ensures Losing(Step(env, st, a).value, s) || RoundOver(Step(env, st, a).value)
  {
    if a.Poll? {
      LosingPoll(env, st, s, a.w, a.l);
    } else if a.Process? {
      LosingProcess(env, st, s, known, a.w, a.p);
    }
  }

  lemma LosingProcess(env: Env, st: State, s: SubId, known: set<SubId>, w: nat, a: ProcessorAction)
    requires OriginInv(env, known, st) && s !in known && (Losing(st, s) || RoundOver(st))
    requires ProcessorStep(env, st, w, a).Some?
    ensures Losing(ProcessorStep(env, st, w, a).value, s) || RoundOver(ProcessorStep(env, st, w, a).value)
  {
    if a.Ack? { AckOrigin(env, known, st, w, a.sub); }
  }

  lemma ElsewhereStep(env: Env, st: State, s: SubId, known: set<SubId>, a: Action)
    requires BlockOrdered(env.source) && Elsewhere(env, s, known, st) && (Losing(st, s) || RoundOver(st))
    requires SameRound(a) && Step(env, st, a).Some?
    ensures Elsewhere(env, s, known, Step(env, st, a).value)
  {
    StreamInvStep(env, st, a);
    if a.Poll? { NoneStarts(env, st, s, a.w, a.l); }
    OriginStep(env, known, st, a);
  }

  lemma NoneStarts(env: Env, st: State, s: SubId, w: nat, a: PollerAction)
    requires OneWorkerEach(st) && (Losing(st, s) || RoundOver(st)) && PollerStep(env, st, w, a).Some?
    ensures !a.StartFilter?
  {
  }

  lemma {:induction false} LosingRound(env: Env, st: State, s: SubId, known: set<SubId>, actions: seq<Action>)
    requires BlockOrdered(env.source) && Elsewhere(env, s, known, st) && Losing(st, s) && Run(env, st, actions).Some?
    requires forall i :: 0 <= i < |actions| ==> SameRound(actions[i])
    ensures var st' := Run(env, st, actions).value; Elsewhere(env, s, known, st') && (Losing(st', s) || RoundOver(st'))
  {
    if actions == [] {
    } else {
      var n := |actions| - 1;
      LosingRound(env, st, s, known, actions[..n]);
      ElsewhereStep(env, Run(env, st, actions[..n]).value, s, known, actions[n]);
      LosingStep(env, Run(env, st, actions[..n]).value, s, known, actions[n]);
    }
  }

  lemma LosingEnds(env: Env, st: State, s: SubId)
    requires (Losing(st, s) || RoundOver(st)) && Step(env, st, Poll(0, EndPoll(true))).Some?
    ensures At(Step(env, st, Poll(0, EndPoll(true))).value.store.checkpoint, s) == 0
  {
  }

  lemma ClaimEnds(env: Env, st: State, s: SubId)
    requires (Losing(st, s) || RoundOver(st)) && ClaimedNewest(st, s) && Step(env, st, Poll(0, EndPoll(true))).Some?
    ensures var st' := Step(env, st, Poll(0, EndPoll(true))).value; !HeightsKept(st'.store, st'.record.floor)
  {
    LosingEnds(env, st, s);
    assert ClaimedNewest(Step(env, st, Poll(0, EndPoll(true))).value, s);
  }

  // Once claimed, a "newest" subscription stays so.
  ghost predicate ClaimedNewest(st: State, s: SubId) {
    s in st.record.floor && s in st.store.registry && !st.store.registry[s].Explicit?
  }

  lemma ClaimStep(env: Env, st: State, s: SubId, a: Action)
    requires ClaimedNewest(st, s) && Step(env, st, a).Some?
    ensures ClaimedNewest(Step(env, st, a).value, s)
  {
  }

  lemma {:induction false} ClaimStays(env: Env, st: State, s: SubId, actions: seq<Action>)
    requires ClaimedNewest(st, s) && Run(env, st, actions).Some?
    ensures ClaimedNewest(Run(env, st, actions).value, s)
  {
    if actions == [] {
    } else {
      ClaimStays(env, st, s, actions[..|actions| - 1]);
      ClaimStep(env, Run(env, st, actions[..|actions| - 1]).value, s, actions[|actions| - 1]);
    }
  }

  lemma PollForgets(env: Env, st: State, loaded: bool) returns (s: SubId)
    requires HeightInv(env, st) && Forgets(env, st) && Step(env, st, Poll(0, BeginPoll(loaded))).Some?
    requires var st' := Step(env, st, Poll(0, BeginPoll(loaded))).value;
             st'.pollers != [] && st'.pollers[0].checkpoint.Some?
    ensures Losing(Step(env, st, Poll(0, BeginPoll(loaded))).value, s) && s !in Marked(st) && ClaimedNewest(st, s)
  {
    s :| s in st.subs.visible && NeedsMark(st.store, st.subs.hwm, st.record.floor, s);
  }

  lemma ForgetfulRound(env: Env, st: State, loaded: bool, during: seq<Action>, begun: State, ended: State)
    requires BlockOrdered(env.source) && HeightInv(env, st) && Forgets(env, st)
    requires Step(env, st, Poll(0, BeginPoll(loaded))) == Some(begun) && begun.pollers != []
    requires begun.pollers[0].checkpoint.Some?
    requires Run(env, begun, during).Some? && forall i :: 0 <= i < |during| ==> SameRound(during[i])
    requires Step(env, Run(env, begun, during).value, Poll(0, EndPoll(true))) == Some(ended)
    ensures !HeightsKept(ended.store, ended.record.floor)
  {
    var s := PollForgets(env, st, loaded);
    StreamInvStep(env, st, Poll(0, BeginPoll(loaded)));
    OriginStep(env, Marked(st), st, Poll(0, BeginPoll(loaded)));
    LosingRound(env, begun, s, Marked(st), during);
    assert ClaimedNewest(begun, s) by { ClaimStep(env, st, s, Poll(0, BeginPoll(loaded))); }
    ClaimStays(env, begun, s, during);
    ClaimEnds(env, Run(env, begun, during).value, s);
  }

  lemma HeedfulRound(env: Env, st: State, loaded: bool, during: seq<Action>, begun: State, ended: State)
    requires BlockOrdered(env.source) && HeightInv(env, st) && !Forgets(env, st)
    requires Step(env, st, Poll(0, BeginPoll(loaded))) == Some(begun)
    requires Run(env, begun, during).Some? && forall i :: 0 <= i < |during| ==> SameRound(during[i])
    requires Step(env, Run(env, begun, during).value, Poll(0, EndPoll(true))) == Some(ended)
    ensures HeightsKept(ended.store, ended.record.floor)
  {
    HeightStep(env, st, Poll(0, BeginPoll(loaded)));
    RoundKeeps(env, begun, during);
    HeightStep(env, Run(env, begun, during).value, Poll(0, EndPoll(true)));
    assert HeightInv(env, ended);
  }

  // A poll that got its checkpoint, whatever else goes on until it has stored it, leaves every claimed
  // "newest" subscription a stored height if and only if it did not begin blocked with a visible one among
  // them whose mark was unset.
  lemma PollKeepsHeightsExactly(env: Env, before: seq<Action>, loaded: bool, during: seq<Action>, begun: State,
                                ended: State)
    requires BlockOrdered(env.source) && MindfulRun(env, before) && Run(env, Initial(), before).Some?
    requires Step(env, Run(env, Initial(), before).value, Poll(0, BeginPoll(loaded))) == Some(begun)
    requires begun.pollers != [] && begun.pollers[0].checkpoint.Some?
    requires Run(env, begun, during).Some? && forall i :: 0 <= i < |during| ==> SameRound(during[i])
    requires Step(env, Run(env, begun, during).value, Poll(0, EndPoll(true))) == Some(ended)
    ensures HeightsKept(ended.store, ended.record.floor) <==> !Forgets(env, Run(env, Initial(), before).value)
  {
    var st := Run(env, Initial(), before).value;
    HeightRun(env, before);
    if Forgets(env, st) {
      ForgetfulRound(env, st, loaded, during, begun, ended);
    } else {
      HeedfulRound(env, st, loaded, during, begun, ended);
    }
  }
}
