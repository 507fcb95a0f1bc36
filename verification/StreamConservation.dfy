/** What every run of a stream keeps: at most one goroutine of each kind, an exact in-flight count,
    bounded batches, and no event lost, duplicated or reordered on its way through the pipeline. */
module StreamConservation {
  import opened Options
  import opened Ledger
  import opened Sequences
  import opened StreamModel

  function Flatten(batches: seq<seq<Event>>): seq<Event> {
    if batches == [] then [] else batches[0] + Flatten(batches[1..])
  }

  lemma {:induction false} FlattenAppend(batches: seq<seq<Event>>, b: seq<Event>)
    ensures Flatten(batches + [b]) == Flatten(batches) + b
  {
    if batches == [] {
      assert [] + [b] == [b];
    } else {
      FlattenAppend(batches[1..], b);
      assert (batches + [b])[1..] == batches[1..] + [b];
    }
  }

  function InProcess(ps: seq<Processor>): seq<Event> {
    if ps != [] && ps[0].Attempting? then ps[0].batch else []
  }

  // Events taken off the queue and still part of the in-flight count.
  function Uncounted(ps: seq<Processor>): nat {
    if ps == [] then 0 else
      match ps[0]
      case Attempting(b) => |b|
      case Settled(b, processed) => if processed then |b| else 0
      case _ => 0
  }

  function Pipeline(st: State): seq<Event> {
    InProcess(st.processors) + Flatten(st.stream.batchQueue) + st.stream.currentBatch
  }

  ghost predicate OneWorkerEach(st: State) {
    && |st.processors| <= 1 && (st.stream.processorDone <==> st.processors == [])
    && |st.pollers| <= 1 && (st.stream.pollerDone <==> st.pollers == [])
    && (st.pollers == [] ==> st.subs.sessions == map[])
  }

  ghost predicate InFlightExact(st: State) {
    st.stream.inFlight ==
      |st.stream.currentBatch| + |Flatten(st.stream.batchQueue)| + Uncounted(st.processors) + |st.history.abandoned|
  }

  ghost predicate BatchesBounded(env: Env, st: State) {
    && |st.stream.currentBatch| < env.batchSize
    && (forall i :: 0 <= i < |st.stream.batchQueue| ==> 1 <= |st.stream.batchQueue[i]| <= env.batchSize)
    && (forall w :: 0 <= w < |st.processors| && st.processors[w].Attempting? ==>
          1 <= |st.processors[w].batch| <= env.batchSize)
  }

  predicate GaveUp(p: Processor) {
    (p.Settled? || p.Counted?) && !p.processed
  }

  // A batch given up unprocessed is past acknowledging: its stream stays suspended or stopped.
  ghost predicate UnprocessedNotAcked(st: State) {
    forall w :: 0 <= w < |st.processors| && GaveUp(st.processors[w]) ==> st.stream.SuspendOrStop()
  }

  // Every accepted event is in exactly one place.
  ghost predicate Balanced(h: History, pipeline: seq<Event>) {
    multiset(h.accepted) ==
      multiset(h.done) + multiset(pipeline) + multiset(h.abandoned) + multiset(h.unattempted)
  }

  ghost predicate Accounted(st: State) {
    Balanced(st.history, Pipeline(st))
  }

  lemma EventEnters(h: History, pipeline: seq<Event>, e: Event)
    requires Balanced(h, pipeline)
    ensures Balanced(h.(accepted := h.accepted + [e]), pipeline + [e])
  {
  }

  lemma BatchLeaves(h: History, b: seq<Event>, rest: seq<Event>)
    requires Balanced(h, b + rest)
    ensures Balanced(h.(done := h.done + b), rest)
    ensures Balanced(h.(unattempted := h.unattempted + b), rest)
    ensures Balanced(h.(abandoned := h.abandoned + b), rest)
  {
  }

  lemma LastBatchLeaves(h: History, rest: seq<Event>, b: seq<Event>)
    requires Balanced(h, rest + b)
    ensures Balanced(h.(abandoned := h.abandoned + b), rest)
  {
    assert multiset(rest + b) == multiset(b + rest);
    BatchLeaves(h, b, rest);
  }

  ghost predicate StreamInv(env: Env, st: State) {
    && OneWorkerEach(st) && InFlightExact(st) && BatchesBounded(env, st) && UnprocessedNotAcked(st)
    && (st.stream.dispatching || st.stream.stopped)
  }

  // Neither subscriptions nor a poller's turn touches the pipeline.
  lemma TurnFrame(env: Env, st: State, w: nat, a: PollerAction)
    requires PollerStep(env, st, w, a).Some?
    ensures var st' := PollerStep(env, st, w, a).value;
            && st'.stream == st.stream.(pollerDone := st'.stream.pollerDone)
            && st'.processors == st.processors && st'.history == st.history
            && st'.record.completed == st.record.completed
  {
  }

  lemma AcceptPipeline(env: Env, st: State, e: Event, subs: Subs)
    ensures var st' := Accept(env, st, e, subs);
            && Pipeline(st') == Pipeline(st) + [e]
            && |Flatten(st'.stream.batchQueue)| + |st'.stream.currentBatch|
               == |Flatten(st.stream.batchQueue)| + |st.stream.currentBatch| + 1
  {
    var p, q, c := InProcess(st.processors), st.stream.batchQueue, st.stream.currentBatch;
    FlattenAppend(q, c + [e]);
    AppendLast(p, Flatten(q), c, e);
  }

  lemma AcceptKeepsInv(env: Env, st: State, e: Event, subs: Subs)
    requires StreamInv(env, st) && (st.pollers == [] ==> subs.sessions == map[])
    ensures StreamInv(env, Accept(env, st, e, subs))
  {
    AcceptBounded(env, st, e, subs);
    AcceptCounted(env, st, e, subs);
  }

  lemma AcceptBounded(env: Env, st: State, e: Event, subs: Subs)
    requires BatchesBounded(env, st)
    ensures BatchesBounded(env, Accept(env, st, e, subs))
  {
  }

  lemma AcceptCounted(env: Env, st: State, e: Event, subs: Subs)
    requires InFlightExact(st)
    ensures InFlightExact(Accept(env, st, e, subs))
  {
    AcceptPipeline(env, st, e, subs);
  }

  lemma AcceptKeepsAccount(env: Env, st: State, e: Event, subs: Subs)
    requires Accounted(st)
    ensures Accounted(Accept(env, st, e, subs))
  {
    AcceptPipeline(env, st, e, subs);
    EventEnters(st.history, Pipeline(st), e);
  }

  lemma ClosePipeline(st: State)
    ensures Pipeline(st) ==
              Pipeline(st.(stream := st.stream.(dispatching := false, currentBatch := []))) + st.stream.currentBatch
  {
    var p, q := InProcess(st.processors), Flatten(st.stream.batchQueue);
    assert p + q + [] + st.stream.currentBatch == p + q + st.stream.currentBatch;
  }

  lemma DispatcherKeepsInv(env: Env, st: State, a: DispatcherAction)
    requires StreamInv(env, st) && DispatcherStep(env, st, a).Some?
    ensures StreamInv(env, DispatcherStep(env, st, a).value)
  {
    match a {
      case Receive(s) => AcceptKeepsInv(env, st, NextEvent(env, st, s), DispatcherStep(env, st, a).value.subs);
      case ReceiveLate(k, s) => AcceptKeepsInv(env, st, LateEvent(env, st, k, s),
          DispatcherStep(env, st, a).value.subs);
      case Timeout => FlattenAppend(st.stream.batchQueue, st.stream.currentBatch);
      case CloseDispatcher =>
    }
  }

  lemma DispatcherKeepsAccount(env: Env, st: State, a: DispatcherAction)
    requires Accounted(st) && DispatcherStep(env, st, a).Some?
    ensures Accounted(DispatcherStep(env, st, a).value)
  {
    var st' := DispatcherStep(env, st, a).value;
    match a {
      case Receive(s) => AcceptKeepsAccount(env, st, NextEvent(env, st, s), st'.subs);
      case ReceiveLate(k, s) => AcceptKeepsAccount(env, st, LateEvent(env, st, k, s), st'.subs);
      case Timeout =>
        FlattenAppend(st.stream.batchQueue, st.stream.currentBatch);
        assert Pipeline(st') == Pipeline(st);
      case CloseDispatcher =>
        ClosePipeline(st);
        assert Pipeline(st') == Pipeline(st.(stream := st.stream.(dispatching := false, currentBatch := [])));
        LastBatchLeaves(st.history, Pipeline(st'), st.stream.currentBatch);
    }
  }

  lemma AdvanceCounted(env: Env, st: State, p: Processor, a: ProcessorAction)
    requires InFlightExact(st) && st.processors == [p] && Advance(env, st, p, a).Some?
    ensures var (p', st') := Advance(env, st, p, a).value; InFlightExact(st'.(processors := [p']))
  {
  }

  lemma AdvanceBounded(env: Env, st: State, p: Processor, a: ProcessorAction)
    requires BatchesBounded(env, st) && st.processors == [p] && Advance(env, st, p, a).Some?
    ensures var (p', st') := Advance(env, st, p, a).value; BatchesBounded(env, st'.(processors := [p']))
  {
  }

  lemma AdvanceGivesUp(env: Env, st: State, p: Processor, a: ProcessorAction)
    requires UnprocessedNotAcked(st) && st.processors == [p] && Advance(env, st, p, a).Some?
    ensures var (p', st') := Advance(env, st, p, a).value; UnprocessedNotAcked(st'.(processors := [p']))
  {
    assert GaveUp(p) ==> GaveUp(st.processors[0]);
  }

  // What no action of a processor touches.
  lemma AdvanceFrame(env: Env, st: State, p: Processor, a: ProcessorAction)
    requires Advance(env, st, p, a).Some?
    ensures var (p', st') := Advance(env, st, p, a).value;
            && st'.pollers == st.pollers && st'.subs == st.subs.(hwm := st'.subs.hwm) && st'.store == st.store
            && st'.record.floor == st.record.floor && st.record.completed <= st'.record.completed
            && st'.stream.SuspendOrStop() == st.stream.SuspendOrStop()
            && st'.stream.processorDone == st.stream.processorDone && st'.stream.pollerDone == st.stream.pollerDone
            && st'.stream.dispatching == st.stream.dispatching && st'.stream.stopped == st.stream.stopped
  {
  }

  lemma ProcessorKeepsInv(env: Env, st: State, w: nat, a: ProcessorAction)
    requires StreamInv(env, st) && ProcessorStep(env, st, w, a).Some?
    ensures StreamInv(env, ProcessorStep(env, st, w, a).value)
  {
    var p := st.processors[0];
    assert st.processors == [p];
    if !a.ExitProcessor? {
      AdvanceFrame(env, st, p, a);
      AdvanceCounted(env, st, p, a);
      AdvanceBounded(env, st, p, a);
      AdvanceGivesUp(env, st, p, a);
      assert ProcessorStep(env, st, w, a).value.processors == [Advance(env, st, p, a).value.0];
    }
  }

  // The pipeline stays as it is, or the batch in process, `b`, leaves it in one of three ways.
  ghost predicate LeavesOrStays(st: State, st': State, b: seq<Event>) {
    var h, h' := st.history, st'.history;
    || (h' == h && Pipeline(st') == Pipeline(st))
    || (&& Pipeline(st) == b + Pipeline(st')
        && (|| h' == h.(done := h.done + b)
            || (st.stream.SuspendOrStop() && h' == h.(unattempted := h.unattempted + b))
            || (st.stream.SuspendOrStop() && h' == h.(abandoned := h.abandoned + b))))
  }

  lemma TakePipeline(env: Env, st: State)
    requires st.processors == [Waiting] && Advance(env, st, Waiting, Take).Some?
    ensures var (p', st') := Advance(env, st, Waiting, Take).value; Pipeline(st'.(processors := [p'])) == Pipeline(st)
  {
    var q := st.stream.batchQueue;
    assert Flatten(q) == q[0] + Flatten(q[1..]);
    MoveFirst(q[0], Flatten(q[1..]), st.stream.currentBatch);
  }

  lemma SettlePipeline(env: Env, st: State, b: seq<Event>, a: ProcessorAction)
    requires st.processors == [Attempting(b)] && Advance(env, st, Attempting(b), a).Some?
    ensures var (p', st') := Advance(env, st, Attempting(b), a).value; LeavesOrStays(st, st'.(processors := [p']), b)
  {
    DropFirst(b, Flatten(st.stream.batchQueue), st.stream.currentBatch);
  }

  lemma AdvancePipeline(env: Env, st: State, p: Processor, a: ProcessorAction)
    requires st.processors == [p] && Advance(env, st, p, a).Some?
    ensures var (p', st') := Advance(env, st, p, a).value; LeavesOrStays(st, st'.(processors := [p']), InProcess([p]))
  {
    match p
    case Waiting => TakePipeline(env, st);
    case Attempting(b) => SettlePipeline(env, st, b, a);
    case _ =>
  }

  // A processor's action leaves the pipeline alone, or takes the batch at its head out of it.
  lemma ProcessorPipeline(env: Env, st: State, w: nat, a: ProcessorAction)
    requires OneWorkerEach(st) && ProcessorStep(env, st, w, a).Some?
    ensures LeavesOrStays(st, ProcessorStep(env, st, w, a).value, InProcess(st.processors))
  {
    var p := st.processors[0];
    assert st.processors == [p];
    if !a.ExitProcessor? {
      AdvancePipeline(env, st, p, a);
      assert ProcessorStep(env, st, w, a).value.processors == [Advance(env, st, p, a).value.0];
    }
  }

  lemma ProcessorKeepsAccount(env: Env, st: State, w: nat, a: ProcessorAction)
    requires OneWorkerEach(st) && Accounted(st) && ProcessorStep(env, st, w, a).Some?
    ensures Accounted(ProcessorStep(env, st, w, a).value)
  {
    var st' := ProcessorStep(env, st, w, a).value;
    ProcessorPipeline(env, st, w, a);
    if Pipeline(st) == InProcess(st.processors) + Pipeline(st') {
      BatchLeaves(st.history, InProcess(st.processors), Pipeline(st'));
    }
  }

  lemma ControlKeepsInv(env: Env, st: State, a: ControlAction)
    requires StreamInv(env, st) && ControlStep(st, a).Some?
    ensures StreamInv(env, ControlStep(st, a).value)
  {
  }

  lemma ControlKeepsAccount(env: Env, st: State, a: ControlAction)
    requires OneWorkerEach(st) && Accounted(st) && ControlStep(st, a).Some?
    ensures Accounted(ControlStep(st, a).value)
  {
    var st' := ControlStep(st, a).value;
    assert !a.Crash? ==> Pipeline(st') == Pipeline(st);
  }

  lemma StepKeepsInv(env: Env, st: State, a: Action)
    requires StreamInv(env, st) && Step(env, st, a).Some?
    ensures StreamInv(env, Step(env, st, a).value)
  {
    match a {
      case Subscription(_) =>
      case Dispatcher(d) => DispatcherKeepsInv(env, st, d);
      case Process(w, p) => ProcessorKeepsInv(env, st, w, p);
      case Poll(w, l) => TurnFrame(env, st, w, l);
      case Control(c) => ControlKeepsInv(env, st, c);
    }
  }

  lemma StepKeepsAccount(env: Env, st: State, a: Action)
    requires StreamInv(env, st) && Accounted(st) && Step(env, st, a).Some?
    ensures Accounted(Step(env, st, a).value)
  {
    match a {
      case Subscription(_) =>
      case Dispatcher(d) => DispatcherKeepsAccount(env, st, d);
      case Process(w, p) => ProcessorKeepsAccount(env, st, w, p);
      case Poll(w, l) => TurnFrame(env, st, w, l);
      case Control(c) => ControlKeepsAccount(env, st, c);
    }
  }

  lemma StreamInvStep(env: Env, st: State, a: Action)
    requires StreamInv(env, st) && Accounted(st) && Step(env, st, a).Some?
    ensures StreamInv(env, Step(env, st, a).value) && Accounted(Step(env, st, a).value)
  {
    StepKeepsInv(env, st, a);
    StepKeepsAccount(env, st, a);
  }

  lemma {:induction false} StreamInvRun(env: Env, actions: seq<Action>)
    requires Run(env, Initial(), actions).Some?
    ensures StreamInv(env, Run(env, Initial(), actions).value) && Accounted(Run(env, Initial(), actions).value)
  {
    if actions == [] {
    } else {
      var n := |actions| - 1;
      StreamInvRun(env, actions[..n]);
      StreamInvStep(env, Run(env, Initial(), actions[..n]).value, actions[n]);
    }
  }

  // The unsigned subtraction of a processed batch never wraps around.
  lemma CountNeverUnderflows(env: Env, actions: seq<Action>, w: nat)
    requires Run(env, Initial(), actions).Some?
    requires var st := Run(env, Initial(), actions).value;
             w < |st.processors| && st.processors[w].Settled? && st.processors[w].processed
    ensures var st := Run(env, Initial(), actions).value;
            |st.processors[w].batch| <= st.stream.inFlight
  {
    StreamInvRun(env, actions);
  }

  // A refused resume changes nothing; a granted one finds no goroutine of the earlier round alive.
  lemma ResumeIsExclusive(env: Env, actions: seq<Action>)
    requires Run(env, Initial(), actions).Some?
    ensures var st := Run(env, Initial(), actions).value;
            var st' := ControlStep(st, Resume).value;
            if st.processors == [] && st.pollers == []
            then
              st' == st.(stream := st.stream.(suspended := false, processorDone := false, pollerDone := false),
                         processors := [Waiting], pollers := [Poller(Idle, {}, None)])
            else st' == st
  {
    StreamInvRun(env, actions);
  }

  // A restart keeps what is stored and nothing else, and comes up suspended if the stream is stored so.
  lemma RestartKeepsStored(env: Env, st: State, suspended: bool)
    ensures var st' := Step(env, st, Control(Crash(suspended))).value;
            && st'.store == st.store && st'.record == st.record
            && st'.stream.suspended == suspended && !st'.stream.stopped && st'.stream.dispatching
            && st'.stream.inFlight == 0 && Pipeline(st') == [] && st'.stream.batchQueue == []
            && st'.processors == [Waiting] && st'.pollers == [Poller(Idle, {}, None)]
            && st'.subs.visible == {} && st'.subs.sessions == map[] && st'.subs.hwm == map[]
            && st'.subs.lingering == [] && st'.history.accepted == []
  {
  }

  // --- first in, first out, as long as nobody suspends or stops the stream ---

  predicate Uninterrupted(a: Action) {
    a.Control? ==> a.c.Resume? || a.c == Crash(false)
  }

  ghost predicate InOrder(st: State) {
    && !st.stream.SuspendOrStop()
    && st.history.accepted == st.history.done + Pipeline(st)
    && st.history.abandoned == [] && st.history.unattempted == []
  }

  lemma InOrderStep(env: Env, st: State, a: Action)
    requires OneWorkerEach(st) && InOrder(st) && Uninterrupted(a) && Step(env, st, a).Some?
    ensures InOrder(Step(env, st, a).value)
  {
    match a {
      case Subscription(_) =>
      case Dispatcher(d) => DispatcherInOrder(env, st, d);
      case Process(w, p) => ProcessorInOrder(env, st, w, p);
      case Poll(w, l) => TurnFrame(env, st, w, l);
      case Control(_) =>
    }
  }

  lemma DispatcherInOrder(env: Env, st: State, a: DispatcherAction)
    requires InOrder(st) && DispatcherStep(env, st, a).Some?
    ensures InOrder(DispatcherStep(env, st, a).value)
  {
    match a {
      case Receive(s) => AcceptPipeline(env, st, NextEvent(env, st, s), DispatcherStep(env, st, a).value.subs);
      case ReceiveLate(k, s) => AcceptPipeline(env, st, LateEvent(env, st, k, s),
          DispatcherStep(env, st, a).value.subs);
      case Timeout => FlattenAppend(st.stream.batchQueue, st.stream.currentBatch);
      case CloseDispatcher =>
    }
  }

  lemma StaysInOrder(st: State, st': State, b: seq<Event>)
    requires InOrder(st) && LeavesOrStays(st, st', b) && st'.stream.SuspendOrStop() == st.stream.SuspendOrStop()
    ensures InOrder(st')
  {
    Associate(st.history.done, b, Pipeline(st'));
  }

  lemma ProcessorInOrder(env: Env, st: State, w: nat, a: ProcessorAction)
    requires OneWorkerEach(st) && InOrder(st) && ProcessorStep(env, st, w, a).Some?
    ensures InOrder(ProcessorStep(env, st, w, a).value)
  {
    if !a.ExitProcessor? { AdvanceFrame(env, st, st.processors[w], a); }
    ProcessorPipeline(env, st, w, a);
    StaysInOrder(st, ProcessorStep(env, st, w, a).value, InProcess(st.processors));
  }

  lemma {:induction false} InOrderRun(env: Env, actions: seq<Action>)
    requires Run(env, Initial(), actions).Some?
    requires forall i :: 0 <= i < |actions| ==> Uninterrupted(actions[i])
    ensures InOrder(Run(env, Initial(), actions).value)
  {
    if actions == [] {
    } else {
      var n := |actions| - 1;
      InOrderRun(env, actions[..n]);
      StreamInvRun(env, actions[..n]);
      InOrderStep(env, Run(env, Initial(), actions[..n]).value, actions[n]);
    }
  }
}
