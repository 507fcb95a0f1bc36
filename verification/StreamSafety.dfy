/** The stored checkpoint over every run, with any suspensions, resumes, stops and crashes: it is safe to restart
    from as long as no acknowledgement passes a claimed event that was not delivered, and no longer. */
module StreamSafety {
  import opened Options
  import opened Ledger
  import opened StreamModel
  import opened StreamConservation
  import opened StreamOrigin
  import opened StreamHeights
  import opened StreamReach

  // Every event of `s` in blocks from `low` up to below `high` has been delivered or skipped.
  ghost predicate Behind(env: Env, completed: set<Event>, s: SubId, low: nat, high: nat) {
    s in env.source ==>
      forall i :: 0 <= i < |env.source[s]| && low <= env.source[s][i].blockNumber < high ==>
          env.source[s][i] in completed
  }

  // What a height claims for a subscription whose claim has begun.
  ghost predicate Covered(env: Env, r: Record, s: SubId, height: nat) {
    s in r.floor ==> Behind(env, r.completed, s, r.floor[s], height)
  }

  // A copied height covers what it claims; where no claim has begun, storing it will begin one there.
  ghost predicate CopyCovered(env: Env, r: Record, hwm: Marks, s: SubId, height: nat) {
    Covered(env, r, s, height) && (s !in r.floor && height > 0 ==> Behind(env, r.completed, s, height, At(hwm, s)))
  }

  ghost predicate MarksCovered(env: Env, hwm: Marks, checkpoint: Marks, r: Record) {
    forall s :: Covered(env, r, s, At(hwm, s)) && Covered(env, r, s, At(checkpoint, s))
  }

  ghost predicate CopiesCovered(env: Env, r: Record, hwm: Marks, pollers: seq<Poller>) {
    forall w, s :: 0 <= w < |pollers| && pollers[w].checkpoint.Some? ==>
        CopyCovered(env, r, hwm, s, At(pollers[w].checkpoint.value, s))
  }

  // Every mark, stored height and copy of one tells the truth.
  ghost predicate Covering(env: Env, st: State) {
    && MarksCovered(env, st.subs.hwm, st.store.checkpoint, st.record)
    && CopiesCovered(env, st.record, st.subs.hwm, st.pollers)
  }

  // --- the acknowledgement that lies ---

  predicate IsAck(st: State, a: Action) {
    a.Process? && a.p.Ack? && a.w < |st.processors| && st.processors[a.w].Acking? && a.p.sub in st.processors[a.w].calls
  }

  // Some poller holds a height at which the claim of `s` would begin.
  ghost predicate Pledged(pollers: seq<Poller>, s: SubId) {
    exists w :: 0 <= w < |pollers| && pollers[w].checkpoint.Some? && At(pollers[w].checkpoint.value, s) > 0
  }

  ghost predicate Claimed(st: State, s: SubId, block: nat) {
    if s in st.record.floor then st.record.floor[s] <= block else Pledged(st.pollers, s)
  }

  // No claimed event between the mark and the acknowledged event's block is left undelivered.
  ghost predicate PassesNone(env: Env, st: State, e: Event) {
    e.subId in env.source ==>
      forall i :: 0 <= i < |env.source[e.subId]|
                  && At(st.subs.hwm, e.subId) <= env.source[e.subId][i].blockNumber <= e.blockNumber
                  && Claimed(st, e.subId, env.source[e.subId][i].blockNumber) ==>
        env.source[e.subId][i] in st.record.completed
  }

  ghost predicate Truthful(env: Env, st: State, a: Action) {
    IsAck(st, a) ==> PassesNone(env, st, st.processors[a.w].calls[a.p.sub])
  }

  lemma RaiseCovers(env: Env, st: State, e: Event)
    requires CopiesKept(st.store.registry, st.subs.hwm, st.record.floor, st.pollers) && Covering(env, st)
    requires PassesNone(env, st, e)
    ensures Covering(env, st.(subs := st.subs.(hwm := Raise(st.subs.hwm, e))))
  {
    var hwm := Raise(st.subs.hwm, e);
    forall s ensures Covered(env, st.record, s, At(hwm, s)) {
      assert Covered(env, st.record, s, At(st.subs.hwm, s));
    }
    forall w, s | 0 <= w < |st.pollers| && st.pollers[w].checkpoint.Some?
      ensures CopyCovered(env, st.record, hwm, s, At(st.pollers[w].checkpoint.value, s))
    {
      assert CopyCovered(env, st.record, st.subs.hwm, s, At(st.pollers[w].checkpoint.value, s));
    }
  }

  lemma LieShows(env: Env, st: State, e: Event)
    requires CopiesKept(st.store.registry, st.subs.hwm, st.record.floor, st.pollers) && !PassesNone(env, st, e)
    ensures !Covering(env, st.(subs := st.subs.(hwm := Raise(st.subs.hwm, e))))
  {
    var s, hwm := e.subId, Raise(st.subs.hwm, e);
    var i :| 0 <= i < |env.source[s]| && At(st.subs.hwm, s) <= env.source[s][i].blockNumber <= e.blockNumber
             && Claimed(st, s, env.source[s][i].blockNumber) && env.source[s][i] !in st.record.completed;
    assert At(hwm, s) == e.blockNumber + 1;
    if s in st.record.floor {
      assert !Covered(env, st.record, s, At(hwm, s));
    } else {
      var w :| 0 <= w < |st.pollers| && st.pollers[w].checkpoint.Some? && At(st.pollers[w].checkpoint.value, s) > 0;
      assert CopyKept(st.store.registry, st.subs.hwm, st.record.floor, s, At(st.pollers[w].checkpoint.value, s));
      assert !CopyCovered(env, st.record, hwm, s, At(st.pollers[w].checkpoint.value, s));
    }
  }

  // An acknowledgement, of any batch in any run, keeps every height truthful if and only if it passes no claimed
  // event that is undelivered.
  lemma AckExact(env: Env, st: State, w: nat, s: SubId)
    requires KeptInv(st) && Covering(env, st) && Step(env, st, Process(w, Ack(s))).Some?
    ensures Covering(env, Step(env, st, Process(w, Ack(s))).value) <==> Truthful(env, st, Process(w, Ack(s)))
  {
    var e := st.processors[w].calls[s];
    if PassesNone(env, st, e) { RaiseCovers(env, st, e); } else { LieShows(env, st, e); }
  }

  // --- all other steps ---

  lemma SubscriptionCovers(env: Env, st: State, a: SubscriptionAction)
    requires KeptInv(st) && Covering(env, st) && SubscriptionStep(st, a).Some?
    ensures Covering(env, SubscriptionStep(st, a).value)
  {
    var st' := SubscriptionStep(st, a).value;
    forall s
      ensures Covered(env, st'.record, s, At(st.subs.hwm, s)) && Covered(env, st'.record, s, At(st.store.checkpoint, s))
    {
      assert Covered(env, st.record, s, At(st.subs.hwm, s)) && Covered(env, st.record, s, At(st.store.checkpoint, s));
    }
    forall w, s | 0 <= w < |st.pollers| && st.pollers[w].checkpoint.Some?
      ensures CopyCovered(env, st'.record, st.subs.hwm, s, At(st.pollers[w].checkpoint.value, s))
    {
      assert CopyCovered(env, st.record, st.subs.hwm, s, At(st.pollers[w].checkpoint.value, s));
    }
  }

  lemma DispatcherCovers(env: Env, st: State, a: DispatcherAction)
    requires Covering(env, st) && DispatcherStep(env, st, a).Some?
    ensures Covering(env, DispatcherStep(env, st, a).value)
  {
  }

  lemma MoreCompleted(env: Env, st: State, r: Record)
    requires Covering(env, st) && r.floor == st.record.floor && st.record.completed <= r.completed
    ensures Covering(env, st.(record := r))
  {
    forall s ensures Covered(env, r, s, At(st.subs.hwm, s)) && Covered(env, r, s, At(st.store.checkpoint, s)) {
      assert Covered(env, st.record, s, At(st.subs.hwm, s)) && Covered(env, st.record, s, At(st.store.checkpoint, s));
    }
    forall w, s | 0 <= w < |st.pollers| && st.pollers[w].checkpoint.Some?
      ensures CopyCovered(env, r, st.subs.hwm, s, At(st.pollers[w].checkpoint.value, s))
    {
      assert CopyCovered(env, st.record, st.subs.hwm, s, At(st.pollers[w].checkpoint.value, s));
    }
  }

  lemma ProcessorCovers(env: Env, st: State, w: nat, a: ProcessorAction)
    requires Covering(env, st) && ProcessorStep(env, st, w, a).Some? && !a.Ack?
    ensures Covering(env, ProcessorStep(env, st, w, a).value)
  {
    var st' := ProcessorStep(env, st, w, a).value;
    assert st'.store == st.store && st'.subs == st.subs && st'.pollers == st.pollers;
    MoreCompleted(env, st, st'.record);
  }

  lemma BeginPollCovers(env: Env, st: State, loaded: bool)
    requires OneWorkerEach(st) && KeptInv(st) && Covering(env, st) && PollerStep(env, st, 0, BeginPoll(loaded)).Some?
    ensures Covering(env, PollerStep(env, st, 0, BeginPoll(loaded)).value)
  {
    var st' := PollerStep(env, st, 0, BeginPoll(loaded)).value;
    forall w, s | 0 <= w < |st'.pollers| && st'.pollers[w].checkpoint.Some?
      ensures CopyCovered(env, st.record, st.subs.hwm, s, At(st'.pollers[w].checkpoint.value, s))
    {
      assert Covered(env, st.record, s, At(st.store.checkpoint, s));
      assert st.pollers[0].checkpoint.Some? ==>
          CopyCovered(env, st.record, st.subs.hwm, s, At(st.pollers[0].checkpoint.value, s));
    }
  }

  // A filter opened at a copied height sets the mark there; one opened elsewhere has no claim to keep.
  lemma StartCovers(env: Env, st: State, a: PollerAction)
    requires OneWorkerEach(st) && KeptInv(st) && Covering(env, st) && a.StartFilter? && PollerStep(env, st, 0, a).Some?
    ensures Covering(env, PollerStep(env, st, 0, a).value)
  {
    var st', cp := PollerStep(env, st, 0, a).value, st.pollers[0].checkpoint.value;
    assert CopyKept(st.store.registry, st.subs.hwm, st.record.floor, a.sub, At(cp, a.sub));
    forall s ensures Covered(env, st.record, s, At(st'.subs.hwm, s)) {
      assert Covered(env, st.record, s, At(st.subs.hwm, s)) && CopyCovered(env, st.record, st.subs.hwm, s, At(cp, s));
    }
    forall w, s | 0 <= w < |st'.pollers| && st'.pollers[w].checkpoint.Some?
      ensures CopyCovered(env, st.record, st'.subs.hwm, s, At(st'.pollers[w].checkpoint.value, s))
    {
      assert CopyCovered(env, st.record, st.subs.hwm, s, At(cp, s));
    }
  }

  lemma CopyCovers(env: Env, st: State, a: PollerAction)
    requires OneWorkerEach(st) && Covering(env, st) && (a.BeginCopy? || a.CopyMark?) && PollerStep(env, st, 0, a).Some?
    ensures Covering(env, PollerStep(env, st, 0, a).value)
  {
    var st' := PollerStep(env, st, 0, a).value;
    forall w, s | 0 <= w < |st'.pollers| && st'.pollers[w].checkpoint.Some?
      ensures CopyCovered(env, st.record, st.subs.hwm, s, At(st'.pollers[w].checkpoint.value, s))
    {
      assert st.pollers[0].checkpoint.Some? ==>
          CopyCovered(env, st.record, st.subs.hwm, s, At(st.pollers[0].checkpoint.value, s));
      assert Covered(env, st.record, s, At(st.subs.hwm, s));
    }
  }

  // Storing a checkpoint may begin a claim; what holds of the copy holds of it too.
  lemma ClaimCovered(env: Env, r: Record, hwm: Marks, cp: Marks, s: SubId)
    requires Covered(env, r, s, At(hwm, s)) && CopyCovered(env, r, hwm, s, At(cp, s))
    ensures var r' := r.(floor := Floors(r.floor, cp));
            Covered(env, r', s, At(hwm, s)) && CopyCovered(env, r', hwm, s, At(cp, s))
  {
  }

  lemma StoreCovers(env: Env, st: State, stored: bool)
    requires OneWorkerEach(st) && Covering(env, st) && PollerStep(env, st, 0, EndPoll(stored)).Some?
    ensures Covering(env, PollerStep(env, st, 0, EndPoll(stored)).value)
  {
    var st', cp := PollerStep(env, st, 0, EndPoll(stored)).value, st.pollers[0].checkpoint.value;
    forall s
      ensures Covered(env, st'.record, s, At(st.subs.hwm, s))
      ensures Covered(env, st'.record, s, At(st'.store.checkpoint, s))
      ensures CopyCovered(env, st'.record, st.subs.hwm, s, At(cp, s))
    {
      assert Covered(env, st.record, s, At(st.subs.hwm, s)) && CopyCovered(env, st.record, st.subs.hwm, s, At(cp, s));
      assert Covered(env, st.record, s, At(st.store.checkpoint, s));
      ClaimCovered(env, st.record, st.subs.hwm, cp, s);
    }
  }

  lemma PollerCovers(env: Env, st: State, w: nat, a: PollerAction)
    requires OneWorkerEach(st) && KeptInv(st) && Covering(env, st) && PollerStep(env, st, w, a).Some?
    ensures Covering(env, PollerStep(env, st, w, a).value)
  {
    match a {
      case BeginPoll(loaded) => BeginPollCovers(env, st, loaded);
      case StartFilter(_, _, _) => StartCovers(env, st, a);
      case BeginCopy => CopyCovers(env, st, a);
      case CopyMark(_) => CopyCovers(env, st, a);
      case EndPoll(stored) => StoreCovers(env, st, stored);
      case ExitPoller =>
    }
  }

  lemma ControlCovers(env: Env, st: State, a: ControlAction)
    requires OneWorkerEach(st) && Covering(env, st) && ControlStep(st, a).Some?
    ensures Covering(env, ControlStep(st, a).value)
  {
    if a.Crash? {
      forall s ensures Covered(env, st.record, s, At(st.store.checkpoint, s)) {
        assert Covered(env, st.record, s, At(st.store.checkpoint, s));
      }
    }
  }

  lemma CoverStep(env: Env, st: State, a: Action)
    requires HeightInv(env, st) && Covering(env, st) && Truthful(env, st, a) && Step(env, st, a).Some?
    ensures Covering(env, Step(env, st, a).value)
  {
    match a {
      case Subscription(s) => SubscriptionCovers(env, st, s);
      case Dispatcher(d) => DispatcherCovers(env, st, d);
      case Process(w, p) => if p.Ack? { AckExact(env, st, w, p.sub); } else { ProcessorCovers(env, st, w, p); }
      case Poll(w, l) => PollerCovers(env, st, w, l);
      case Control(c) => ControlCovers(env, st, c);
    }
  }

  // --- whole runs ---

  ghost function Truthfully(env: Env): (State, Action) -> bool { (st: State, a: Action) => Truthful(env, st, a) }

  ghost predicate TruthfulRun(env: Env, actions: seq<Action>) { Meets(env, Initial(), Truthfully(env), actions) }

  lemma {:induction false} CoverRun(env: Env, actions: seq<Action>)
    requires BlockOrdered(env.source) && MindfulRun(env, actions) && TruthfulRun(env, actions)
    requires Run(env, Initial(), actions).Some?
    ensures Covering(env, Run(env, Initial(), actions).value)
  {
    if actions == [] {
    } else {
      var n := |actions| - 1;
      MeetsPrefix(env, Initial(), Mindfully(env), actions, n);
      MeetsPrefix(env, Initial(), Truthfully(env), actions, n);
      CoverRun(env, actions[..n]);
      HeightRun(env, actions[..n]);
      assert Truthfully(env)(Run(env, Initial(), actions[..n]).value, actions[n]);
      CoverStep(env, Run(env, Initial(), actions[..n]).value, actions[n]);
    }
  }

  // What the stored checkpoint of every subscription says is behind it has been delivered or skipped.
  ghost predicate CheckpointSafe(env: Env, st: State) { forall s :: Covered(env, st.record, s,
                                 At(st.store.checkpoint, s)) }

  // Whatever suspensions, resumes, stops and crashes a run holds, it may restart from the stored checkpoint.
  lemma CheckpointSafeRun(env: Env, actions: seq<Action>)
    requires BlockOrdered(env.source) && MindfulRun(env, actions) && TruthfulRun(env, actions)
    requires Run(env, Initial(), actions).Some?
    ensures CheckpointSafe(env, Run(env, Initial(), actions).value)
  {
    CoverRun(env, actions);
  }

  ghost predicate CoveringThroughout(env: Env, actions: seq<Action>) {
    forall n :: 0 <= n <= |actions| && Run(env, Initial(), actions[..n]).Some? ==>
        Covering(env, Run(env, Initial(), actions[..n]).value)
  }

  // All along a run every mark, stored height and copy tells the truth if and only if every acknowledgement
  // made in it does.
  lemma CoveringExactly(env: Env, actions: seq<Action>)
    requires BlockOrdered(env.source) && MindfulRun(env, actions) && Run(env, Initial(), actions).Some?
    ensures CoveringThroughout(env, actions) <==> TruthfulRun(env, actions)
  {
    if TruthfulRun(env, actions) {
      forall n | 0 <= n <= |actions| && Run(env, Initial(), actions[..n]).Some?
        ensures Covering(env, Run(env, Initial(), actions[..n]).value)
      {
        MeetsPrefix(env, Initial(), Mindfully(env), actions, n);
        MeetsPrefix(env, Initial(), Truthfully(env), actions, n);
        CoverRun(env, actions[..n]);
      }
    } else {
      var i :| 0 <= i < |actions| && Run(env, Initial(), actions[..i]).Some?
               && !Truthfully(env)(Run(env, Initial(), actions[..i]).value, actions[i]);
      LieIsSeen(env, actions, i);
    }
  }

  lemma LieIsSeen(env: Env, actions: seq<Action>, i: nat)
    requires BlockOrdered(env.source) && MindfulRun(env, actions) && Run(env, Initial(), actions).Some?
    requires i < |actions| && Run(env, Initial(), actions[..i]).Some?
    requires !Truthful(env, Run(env, Initial(), actions[..i]).value, actions[i])
    ensures !CoveringThroughout(env, actions)
  {
    var st := Run(env, Initial(), actions[..i]).value;
    PrefixRuns(env, Initial(), actions, i + 1);
    assert actions[..i + 1][..i] == actions[..i];
    assert Run(env, Initial(), actions[..i + 1]) == Step(env, st, actions[i]);
    if Covering(env, st) {
      MeetsPrefix(env, Initial(), Mindfully(env), actions, i);
      HeightRun(env, actions[..i]);
      AckExact(env, st, actions[i].w, actions[i].p.sub);
    }
  }
}
