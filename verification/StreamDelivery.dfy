/** At-least-once delivery across crashes: while nobody suspends or stops the stream, the one acknowledgement that can
    lie is that of a block's event before the block's last, and as long as none does, nothing claimed is lost. */
module StreamDelivery {
  import opened Options
  import opened Ledger
  import opened StreamModel
  import opened StreamConservation
  import opened StreamFlow
  import opened StreamOrigin
  import opened StreamHeights
  import opened StreamReach
  import opened StreamSafety

  // Nobody suspends or stops the stream, and no poll forgets a height.
  ghost predicate Heedful(env: Env, st: State, a: Action) { Uninterrupted(a) && Mindful(env, st, a) }

  ghost function Heeding(env: Env): (State, Action) -> bool { (st: State, a: Action) => Heedful(env, st, a) }

  ghost predicate HeedfulRun(env: Env, actions: seq<Action>) { Meets(env, Initial(), Heeding(env), actions) }

  // --- where open filters began ---

  // Below where a filter was opened nothing is claimed beyond its mark.
  ghost predicate SinceOk(registry: map<SubId, FromBlock>, subs: Subs, floor: map<SubId, nat>) {
    && (forall s :: Explicitly(registry, s) ==> s in floor && floor[s] == registry[s].block)
    && (forall s :: s in subs.sessions ==>
          subs.sessions[s].since <= At(subs.hwm, s) || (Explicitly(registry, s) && subs.sessions[s].since == floor[s]))
  }

  ghost predicate SinceInv(st: State) { SinceOk(st.store.registry, st.subs, st.record.floor) }

  lemma SinceSubscription(st: State, a: SubscriptionAction)
    requires KeptInv(st) && SinceInv(st) && SubscriptionStep(st, a).Some?
    ensures SinceInv(SubscriptionStep(st, a).value)
  {
  }

  lemma SinceDispatcher(env: Env, st: State, a: DispatcherAction)
    requires SinceInv(st) && DispatcherStep(env, st, a).Some?
    ensures SinceInv(DispatcherStep(env, st, a).value)
  {
  }

  lemma SinceRaised(registry: map<SubId, FromBlock>, subs: Subs, floor: map<SubId, nat>, hwm: Marks)
    requires SinceOk(registry, subs, floor) && forall s :: At(subs.hwm, s) <= At(hwm, s)
    ensures SinceOk(registry, subs.(hwm := hwm), floor)
  {
  }

  lemma SinceProcessor(env: Env, st: State, w: nat, a: ProcessorAction)
    requires SinceInv(st) && ProcessorStep(env, st, w, a).Some?
    ensures SinceInv(ProcessorStep(env, st, w, a).value)
  {
    var st' := ProcessorStep(env, st, w, a).value;
    SinceRaised(st.store.registry, st.subs, st.record.floor, st'.subs.hwm);
    assert st'.store == st.store && st'.subs == st.subs.(hwm := st'.subs.hwm) && st'.record.floor == st.record.floor;
  }

  lemma SinceStart(env: Env, registry: map<SubId, FromBlock>, subs: Subs, floor: map<SubId, nat>, s: SubId, cp: nat,
                   height: Option<nat>, subscribed: bool)
    requires SinceOk(registry, subs, floor) && s in registry
    ensures SinceOk(registry, Start(env, subs, s, OpeningOf(registry[s], cp, height), subscribed), floor)
  {
  }

  lemma SinceStored(registry: map<SubId, FromBlock>, subs: Subs, floor: map<SubId, nat>, cp: Marks)
    requires SinceOk(registry, subs, floor)
    ensures SinceOk(registry, subs, Floors(floor, cp))
  {
  }

  lemma SincePoller(env: Env, st: State, w: nat, a: PollerAction)
    requires SinceInv(st) && PollerStep(env, st, w, a).Some?
    ensures SinceInv(PollerStep(env, st, w, a).value)
  {
    if a.StartFilter? {
      SinceStart(env, st.store.registry, st.subs, st.record.floor, a.sub, At(st.pollers[w].checkpoint.value, a.sub),
          a.height, a.subscribed);
    } else if a.EndPoll? {
      SinceStored(st.store.registry, st.subs, st.record.floor, st.pollers[w].checkpoint.value);
    }
  }

  lemma SinceStep(env: Env, st: State, a: Action)
    requires KeptInv(st) && SinceInv(st) && Step(env, st, a).Some?
    ensures SinceInv(Step(env, st, a).value)
  {
    match a {
      case Subscription(s) => SinceSubscription(st, s);
      case Dispatcher(d) => SinceDispatcher(env, st, d);
      case Process(w, p) => SinceProcessor(env, st, w, p);
      case Poll(w, l) => SincePoller(env, st, w, l);
      case Control(_) =>
    }
  }

  ghost predicate DeliveryInv(env: Env, st: State) { BaseInv(env, st) && HeightInv(env, st) && SinceInv(st) }

  lemma HeedfulIsMindful(env: Env, actions: seq<Action>)
    requires HeedfulRun(env, actions)
    ensures MindfulRun(env, actions)
  {
    forall i | 0 <= i < |actions| && Run(env, Initial(), actions[..i]).Some?
      ensures Mindfully(env)(Run(env, Initial(), actions[..i]).value, actions[i])
    {
      assert Heeding(env)(Run(env, Initial(), actions[..i]).value, actions[i]);
    }
  }

  lemma DeliveryStep(env: Env, st: State, a: Action)
    requires BlockOrdered(env.source) && DeliveryInv(env, st) && Heedful(env, st, a) && Step(env, st, a).Some?
    ensures DeliveryInv(env, Step(env, st, a).value)
  {
    HeightStep(env, st, a);
    InOrderStep(env, st, a);
    FlowStep(env, st, a);
    SinceStep(env, st, a);
  }

  lemma DeliveryStart(env: Env)
    ensures DeliveryInv(env, Initial())
  {
    HeightStart(env);
  }

  lemma {:induction false} DeliveryRun(env: Env, actions: seq<Action>)
    requires BlockOrdered(env.source) && HeedfulRun(env, actions) && Run(env, Initial(), actions).Some?
    ensures DeliveryInv(env, Run(env, Initial(), actions).value)
  {
    if actions == [] {
      DeliveryStart(env);
    } else {
      var n := |actions| - 1;
      MeetsPrefix(env, Initial(), Heeding(env), actions, n);
      DeliveryRun(env, actions[..n]);
      assert Heeding(env)(Run(env, Initial(), actions[..n]).value, actions[n]);
      DeliveryStep(env, Run(env, Initial(), actions[..n]).value, actions[n]);
    }
  }

  // --- the one acknowledgement that lies ---

  // No later event of the block is left behind the mark that acknowledging `e` sets.
  ghost predicate LeavesNone(env: Env, st: State, e: Event) {
    e.subId in env.source && At(st.subs.hwm, e.subId) <= e.blockNumber && Claimed(st, e.subId, e.blockNumber) ==>
      forall i :: e.position < i < |env.source[e.subId]| && env.source[e.subId][i].blockNumber == e.blockNumber ==>
        env.source[e.subId][i] in st.record.completed
  }

  // Up to the acknowledged event its filter has relayed, and the processors completed, everything in order.
  lemma NonePassed(env: Env, st: State, e: Event, i: nat)
    requires BlockOrdered(env.source) && RelayedInOrder(env, st.subs.sessions, st.history.done, e)
    requires e in st.history.done
    requires (forall d :: d in st.history.done ==> d in st.record.completed) && LeavesNone(env, st, e)
    requires i < |env.source[e.subId]|
    requires st.subs.sessions[e.subId].since <= env.source[e.subId][i].blockNumber <= e.blockNumber
    requires At(st.subs.hwm, e.subId) <= env.source[e.subId][i].blockNumber
    requires Claimed(st, e.subId, env.source[e.subId][i].blockNumber)
    ensures env.source[e.subId][i] in st.record.completed
  {
    assert FirstFrom(env.source[e.subId], st.subs.sessions[e.subId].since) <= i;
  }

  lemma ClaimedSince(st: State, s: SubId, block: nat)
    requires SinceInv(st) && s in st.subs.sessions && At(st.subs.hwm, s) <= block && Claimed(st, s, block)
    ensures st.subs.sessions[s].since <= block
  {
  }

  lemma LastDecides(env: Env, st: State, e: Event)
    requires BlockOrdered(env.source) && InOrder(st) && FlowInv(env, st) && SinceInv(st) && e in st.history.done
    ensures PassesNone(env, st, e) <==> LeavesNone(env, st, e)
  {
    DonePrefix(env, st, e);
    if LeavesNone(env, st, e) {
      var s, events := e.subId, env.source[e.subId];
      forall i | 0 <= i < |events| && At(st.subs.hwm, s) <= events[i].blockNumber <= e.blockNumber
                 && Claimed(st, s, events[i].blockNumber)
        ensures events[i] in st.record.completed
      {
        ClaimedSince(st, s, events[i].blockNumber);
        NonePassed(env, st, e, i);
      }
    }
  }

  ghost predicate WholeAck(env: Env, st: State, a: Action) {
    IsAck(st, a) ==> LeavesNone(env, st, st.processors[a.w].calls[a.p.sub])
  }

  ghost function WholeAcking(env: Env): (State, Action) -> bool { (st: State, a: Action) => WholeAck(env, st, a) }

  ghost predicate WholeAcks(env: Env, actions: seq<Action>) { Meets(env, Initial(), WholeAcking(env), actions) }

  lemma WholeIsTruthful(env: Env, st: State, a: Action)
    requires BlockOrdered(env.source) && DeliveryInv(env, st)
    ensures WholeAck(env, st, a) <==> Truthful(env, st, a)
  {
    if IsAck(st, a) {
      AckedIsDone(env, st, a.w, a.p.sub);
      LastDecides(env, st, st.processors[a.w].calls[a.p.sub]);
    }
  }

  // While nobody suspends or stops the stream, the acknowledgements of a run tell the truth if and only if none
  // leaves a later claimed event of its own block undelivered.
  lemma WholeAcksExactly(env: Env, actions: seq<Action>)
    requires BlockOrdered(env.source) && HeedfulRun(env, actions)
    ensures WholeAcks(env, actions) <==> TruthfulRun(env, actions)
  {
    forall i | 0 <= i < |actions| && Run(env, Initial(), actions[..i]).Some?
      ensures var st := Run(env, Initial(), actions[..i]).value;
              WholeAcking(env)(st, actions[i]) <==> Truthfully(env)(st, actions[i])
    {
      MeetsPrefix(env, Initial(), Heeding(env), actions, i);
      DeliveryRun(env, actions[..i]);
      WholeIsTruthful(env, Run(env, Initial(), actions[..i]).value, actions[i]);
    }
  }

  // --- nothing is lost ---

  // Every claimed event of a running subscription is delivered or skipped, on its way, or still to be relayed.
  ghost predicate NothingLost(env: Env, st: State) {
    forall s, i :: s in env.source && s in st.record.floor && s in st.subs.sessions && 0 <= i < |env.source[s]|
                   && st.record.floor[s] <= env.source[s][i].blockNumber ==>
      || env.source[s][i] in st.record.completed
      || env.source[s][i] in Pipeline(st)
      || i >= st.subs.sessions[s].next
  }

  lemma CoveringLosesNothing(env: Env, st: State)
    requires BlockOrdered(env.source) && DeliveryInv(env, st) && Covering(env, st)
    ensures NothingLost(env, st)
  {
    forall s, i | s in env.source && s in st.record.floor && s in st.subs.sessions && 0 <= i < |env.source[s]|
                  && st.record.floor[s] <= env.source[s][i].blockNumber
      ensures env.source[s][i] in st.record.completed || env.source[s][i] in Pipeline(st)
              || i >= st.subs.sessions[s].next
    {
      assert Covered(env, st.record, s, At(st.subs.hwm, s));
      assert RelayedAll(env, st.subs.sessions[s], st.history.accepted, s);
    }
  }

  // Over any number of crashes, and with polls at any time during recovery.
  lemma AtLeastOnce(env: Env, actions: seq<Action>)
    requires BlockOrdered(env.source) && HeedfulRun(env, actions) && WholeAcks(env, actions)
    requires Run(env, Initial(), actions).Some?
    ensures CheckpointSafe(env, Run(env, Initial(), actions).value)
    ensures NothingLost(env, Run(env, Initial(), actions).value)
  {
    HeedfulIsMindful(env, actions);
    WholeAcksExactly(env, actions);
    CoverRun(env, actions);
    DeliveryRun(env, actions);
    CoveringLosesNothing(env, Run(env, Initial(), actions).value);
  }

  // --- batches that split no block ---

  // Acknowledging the batch raises no mark over an event of a block it holds only part of.
  ghost predicate WholeBlocks(env: Env, b: seq<Event>) {
    forall s :: s in LastPerSub(b) ==> EndsBlock(env.source, LastPerSub(b)[s])
  }

  // No dispatched batch splits a block.
  ghost predicate Unsplit(env: Env, st: State, a: Action) {
    && (a.Dispatcher? && a.d.Timeout? ==> WholeBlocks(env, st.stream.currentBatch))
    && (a.Dispatcher? && a.d.Receive? && CanReceive(env, st, a.d.sub)
         && |st.stream.currentBatch| + 1 == env.batchSize ==>
          WholeBlocks(env, st.stream.currentBatch + [NextEvent(env, st, a.d.sub)]))
  }

  ghost function Unsplitting(env: Env): (State, Action) -> bool { (st: State, a: Action) => Unsplit(env, st, a) }

  ghost predicate UnsplitRun(env: Env, actions: seq<Action>) { Meets(env, Initial(), Unsplitting(env), actions) }

  ghost predicate ProcessorWhole(env: Env, p: Processor) {
    match p
    case Waiting => true
    case Attempting(b) => WholeBlocks(env, b)
    case Settled(b, _) => WholeBlocks(env, b)
    case Counted(b, _) => WholeBlocks(env, b)
    case Acking(calls) => forall s :: s in calls ==> EndsBlock(env.source, calls[s])
  }

  ghost predicate WholeInv(env: Env, queue: seq<seq<Event>>, ps: seq<Processor>) {
    && (forall i :: 0 <= i < |queue| ==> WholeBlocks(env, queue[i]))
    && (forall w :: 0 <= w < |ps| ==> ProcessorWhole(env, ps[w]))
  }

  lemma WholeStep(env: Env, st: State, a: Action)
    requires WholeInv(env, st.stream.batchQueue, st.processors) && st.subs.lingering == []
    requires Unsplit(env, st, a) && Step(env, st, a).Some?
    ensures var st' := Step(env, st, a).value; WholeInv(env, st'.stream.batchQueue, st'.processors)
  {
    match a {
      case Subscription(_) =>
      case Dispatcher(d) => DispatcherWhole(env, st, d);
      case Process(w, p) => WorkerWhole(env, st, w, p);
      case Poll(w, l) => TurnFrame(env, st, w, l);
      case Control(_) =>
    }
  }

  lemma DispatcherWhole(env: Env, st: State, a: DispatcherAction)
    requires WholeInv(env, st.stream.batchQueue, st.processors) && st.subs.lingering == []
    requires Unsplit(env, st, Dispatcher(a)) && DispatcherStep(env, st, a).Some?
    ensures var st' := DispatcherStep(env, st, a).value; WholeInv(env, st'.stream.batchQueue, st'.processors)
  {
  }

  lemma TakeWhole(env: Env, queue: seq<seq<Event>>)
    requires queue != [] && forall i :: 0 <= i < |queue| ==> WholeBlocks(env, queue[i])
    ensures WholeBlocks(env, queue[0]) && forall i :: 0 <= i < |queue[1..]| ==> WholeBlocks(env, queue[1..][i])
  {
  }

  lemma AdvanceWhole(env: Env, st: State, p: Processor, a: ProcessorAction)
    requires (forall i :: 0 <= i < |st.stream.batchQueue| ==> WholeBlocks(env, st.stream.batchQueue[i]))
    requires ProcessorWhole(env, p)
    requires Advance(env, st, p, a).Some?
    ensures var (p', st') := Advance(env, st, p, a).value; WholeInv(env, st'.stream.batchQueue, [p'])
  {
    if p.Waiting? && a.Take? { TakeWhole(env, st.stream.batchQueue); }
  }

  lemma WorkerWhole(env: Env, st: State, w: nat, a: ProcessorAction)
    requires WholeInv(env, st.stream.batchQueue, st.processors) && ProcessorStep(env, st, w, a).Some?
    ensures var st' := ProcessorStep(env, st, w, a).value; WholeInv(env, st'.stream.batchQueue, st'.processors)
  {
    if !a.ExitProcessor? {
      AdvanceWhole(env, st, st.processors[w], a);
      assert ProcessorWhole(env, [Advance(env, st, st.processors[w], a).value.0][0]);
    }
  }

  lemma {:induction false} WholeRun(env: Env, actions: seq<Action>)
    requires BlockOrdered(env.source) && HeedfulRun(env, actions) && UnsplitRun(env, actions)
    requires Run(env, Initial(), actions).Some?
    ensures var st := Run(env, Initial(), actions).value; WholeInv(env, st.stream.batchQueue, st.processors)
  {
    if actions == [] {
    } else {
      var n := |actions| - 1;
      MeetsPrefix(env, Initial(), Heeding(env), actions, n);
      MeetsPrefix(env, Initial(), Unsplitting(env), actions, n);
      WholeRun(env, actions[..n]);
      DeliveryRun(env, actions[..n]);
      assert Unsplitting(env)(Run(env, Initial(), actions[..n]).value, actions[n]);
      WholeStep(env, Run(env, Initial(), actions[..n]).value, actions[n]);
    }
  }

  lemma WholeBatchAck(env: Env, st: State, a: Action)
    requires WholeInv(env, st.stream.batchQueue, st.processors)
    ensures WholeAck(env, st, a)
  {
    if IsAck(st, a) {
      assert ProcessorWhole(env, st.processors[a.w]);
    }
  }

  lemma UnsplitAcks(env: Env, actions: seq<Action>)
    requires BlockOrdered(env.source) && HeedfulRun(env, actions) && UnsplitRun(env, actions)
    ensures WholeAcks(env, actions)
  {
    forall i | 0 <= i < |actions| && Run(env, Initial(), actions[..i]).Some?
      ensures WholeAcking(env)(Run(env, Initial(), actions[..i]).value, actions[i])
    {
      MeetsPrefix(env, Initial(), Heeding(env), actions, i);
      MeetsPrefix(env, Initial(), Unsplitting(env), actions, i);
      WholeRun(env, actions[..i]);
      WholeBatchAck(env, Run(env, Initial(), actions[..i]).value, actions[i]);
    }
  }

  lemma AtLeastOnceWhole(env: Env, actions: seq<Action>)
    requires BlockOrdered(env.source) && HeedfulRun(env, actions) && UnsplitRun(env, actions)
    requires Run(env, Initial(), actions).Some?
    ensures CheckpointSafe(env, Run(env, Initial(), actions).value)
    ensures NothingLost(env, Run(env, Initial(), actions).value)
  {
    UnsplitAcks(env, actions);
    AtLeastOnce(env, actions);
  }

  // --- a ledger with one event per block and subscription needs no care about batches ---

  lemma AloneIsWhole(env: Env, st: State, a: Action)
    requires BlockOrdered(env.source) && OneEventPerBlock(env.source) && InOrder(st) && FlowInv(env, st)
    ensures WholeAck(env, st, a)
  {
    if IsAck(st, a) {
      AckedIsDone(env, st, a.w, a.p.sub);
      DonePrefix(env, st, st.processors[a.w].calls[a.p.sub]);
    }
  }

  lemma AtLeastOnceUnsplit(env: Env, actions: seq<Action>)
    requires BlockOrdered(env.source) && OneEventPerBlock(env.source) && HeedfulRun(env, actions)
    requires Run(env, Initial(), actions).Some?
    ensures CheckpointSafe(env, Run(env, Initial(), actions).value)
    ensures NothingLost(env, Run(env, Initial(), actions).value)
  {
    forall i | 0 <= i < |actions| && Run(env, Initial(), actions[..i]).Some?
      ensures WholeAcking(env)(Run(env, Initial(), actions[..i]).value, actions[i])
    {
      MeetsPrefix(env, Initial(), Heeding(env), actions, i);
      DeliveryRun(env, actions[..i]);
      AloneIsWhole(env, Run(env, Initial(), actions[..i]).value, actions[i]);
    }
    AtLeastOnce(env, actions);
  }
}
