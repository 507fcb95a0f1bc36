/** The order in which events leave the pipeline, in every run: whatever was accepted before an acknowledged event has
    been completed, given up or left unattempted. */
module StreamOrder {
  import opened Options
  import opened Ledger
  import opened Sequences
  import opened StreamModel
  import opened StreamConservation
  import HighWater

  predicate Gone(h: History, e: Event) { e in h.done || e in h.abandoned || e in h.unattempted }

  ghost predicate AllGone(h: History, n: nat)
    requires n <= |h.accepted|
  {
    forall j :: 0 <= j < n ==> Gone(h, h.accepted[j])
  }

  // The pipeline is the accepted events from the n-th on; all before it have left.
  ghost predicate Window(h: History, pipeline: seq<Event>, n: nat) {
    n + |pipeline| <= |h.accepted| && h.accepted[n..n + |pipeline|] == pipeline && AllGone(h, n)
  }

  ghost predicate InWindow(h: History, pipeline: seq<Event>, whole: bool) {
    exists n: nat :: Window(h, pipeline, n) && (whole ==> n + |pipeline| == |h.accepted|)
  }

  // `e` left the pipeline after everything accepted before it.
  ghost predicate Seen(h: History, e: Event) {
    exists k :: 0 <= k < |h.accepted| && h.accepted[k] == e && AllGone(h, k)
  }

  ghost predicate AllSeen(h: History, b: seq<Event>) { forall e :: e in b ==> Seen(h, e) }

  ghost predicate ProcessorSeen(h: History, p: Processor) {
    match p
    case Waiting => true
    case Attempting(_) => true
    case Settled(b, _) => AllSeen(h, b)
    case Counted(b, _) => AllSeen(h, b)
    case Acking(calls) => forall s :: s in calls ==> Seen(h, calls[s])
  }

  ghost predicate OrderInv(st: State) {
    && InWindow(st.history, Pipeline(st), st.stream.dispatching)
    && (forall w :: 0 <= w < |st.processors| ==> ProcessorSeen(st.history, st.processors[w]))
    && (forall e :: e in st.history.done ==> e in st.record.completed)
  }

  // More events are accepted, or more have left.
  ghost predicate Later(h: History, h': History) {
    h.accepted <= h'.accepted && h.done <= h'.done && h.abandoned <= h'.abandoned && h.unattempted <= h'.unattempted
  }

  lemma GoneLater(h: History, h': History, n: nat)
    requires Later(h, h') && n <= |h.accepted| && AllGone(h, n)
    ensures AllGone(h', n)
  {
  }

  lemma SeenLater(h: History, h': History, e: Event)
    requires Later(h, h') && Seen(h, e)
    ensures Seen(h', e)
  {
    var k :| 0 <= k < |h.accepted| && h.accepted[k] == e && AllGone(h, k);
    GoneLater(h, h', k);
    assert h'.accepted[k] == e;
  }

  lemma ProcessorLater(h: History, h': History, p: Processor)
    requires Later(h, h') && ProcessorSeen(h, p)
    ensures ProcessorSeen(h', p)
  {
    match p
    case Settled(b, _) => forall e | e in b ensures Seen(h', e) { SeenLater(h, h', e); }
    case Counted(b, _) => forall e | e in b ensures Seen(h', e) { SeenLater(h, h', e); }
    case Acking(calls) => forall s | s in calls ensures Seen(h', calls[s]) { SeenLater(h, h', calls[s]); }
    case _ =>
  }

  lemma WindowAccept(h: History, pipeline: seq<Event>, e: Event)
    requires InWindow(h, pipeline, true)
    ensures InWindow(h.(accepted := h.accepted + [e]), pipeline + [e], true)
  {
    var n: nat :| Window(h, pipeline, n) && n + |pipeline| == |h.accepted|;
    var h' := h.(accepted := h.accepted + [e]);
    GoneLater(h, h', n);
    assert Window(h', pipeline + [e], n);
  }

  lemma WindowCut(h: History, rest: seq<Event>, b: seq<Event>, whole: bool)
    requires InWindow(h, rest + b, whole)
    ensures InWindow(h.(abandoned := h.abandoned + b), rest, false)
  {
    var n: nat :| Window(h, rest + b, n);
    var h' := h.(abandoned := h.abandoned + b);
    GoneLater(h, h', n);
    assert h.accepted[n..n + |rest|] == h.accepted[n..n + |rest + b|][..|rest|] == rest;
    assert Window(h', rest, n);
  }

  // A batch leaves from the front: everything before and within it is gone.
  lemma WindowLeave(h: History, h': History, b: seq<Event>, rest: seq<Event>, whole: bool)
    requires InWindow(h, b + rest, whole) && Later(h, h') && h'.accepted == h.accepted
    requires forall e :: e in b ==> Gone(h', e)
    ensures InWindow(h', rest, whole) && AllSeen(h', b)
  {
    var n: nat :| Window(h, b + rest, n) && (whole ==> n + |b + rest| == |h.accepted|);
    GoneLater(h, h', n);
    forall j | 0 <= j < |b|
      ensures h.accepted[n + j] == b[j]
    {
      assert h.accepted[n..n + |b + rest|][j] == (b + rest)[j];
    }
    LeftBehind(h', b, n);
    assert h.accepted[n + |b|..n + |b| + |rest|] == h.accepted[n..n + |b + rest|][|b|..] == rest;
    assert Window(h', rest, n + |b|);
  }

  lemma LeftBehind(h: History, b: seq<Event>, n: nat)
    requires n + |b| <= |h.accepted| && AllGone(h, n) && (forall j :: 0 <= j < |b| ==> h.accepted[n + j] == b[j])
    requires forall e :: e in b ==> Gone(h, e)
    ensures AllGone(h, n + |b|) && AllSeen(h, b)
  {
    forall j | 0 <= j < n + |b| ensures Gone(h, h.accepted[j]) {
      if j >= n { assert h.accepted[j] == b[j - n]; }
    }
    forall e | e in b ensures Seen(h, e) {
      var j :| 0 <= j < |b| && b[j] == e;
      assert h.accepted[n + j] == e && AllGone(h, n + j);
    }
  }

  lemma OrderAccept(env: Env, st: State, e: Event, subs: Subs)
    requires OrderInv(st) && st.stream.dispatching
    ensures OrderInv(Accept(env, st, e, subs))
  {
    var st' := Accept(env, st, e, subs);
    AcceptPipeline(env, st, e, subs);
    WindowAccept(st.history, Pipeline(st), e);
    forall w | 0 <= w < |st.processors| ensures ProcessorSeen(st'.history, st.processors[w]) {
      ProcessorLater(st.history, st'.history, st.processors[w]);
    }
  }

  lemma OrderClose(env: Env, st: State)
    requires OrderInv(st) && DispatcherStep(env, st, CloseDispatcher).Some?
    ensures OrderInv(DispatcherStep(env, st, CloseDispatcher).value)
  {
    var st' := DispatcherStep(env, st, CloseDispatcher).value;
    ClosePipeline(st);
    assert Pipeline(st') == Pipeline(st.(stream := st.stream.(dispatching := false, currentBatch := [])));
    WindowCut(st.history, Pipeline(st'), st.stream.currentBatch, st.stream.dispatching);
    forall w | 0 <= w < |st.processors| ensures ProcessorSeen(st'.history, st.processors[w]) {
      ProcessorLater(st.history, st'.history, st.processors[w]);
    }
  }

  lemma OrderDispatcher(env: Env, st: State, a: DispatcherAction)
    requires OrderInv(st) && DispatcherStep(env, st, a).Some?
    ensures OrderInv(DispatcherStep(env, st, a).value)
  {
    match a
    case Receive(s) => OrderAccept(env, st, NextEvent(env, st, s), DispatcherStep(env, st, a).value.subs);
    case ReceiveLate(k, s) => OrderAccept(env, st, LateEvent(env, st, k, s), DispatcherStep(env, st, a).value.subs);
    case Timeout => TimeoutPipeline(st);
    case CloseDispatcher => OrderClose(env, st);
  }

  lemma TimeoutPipeline(st: State)
    ensures Pipeline(st.(stream := st.stream.Timeout())) == Pipeline(st)
  {
    var p, q, c := InProcess(st.processors), st.stream.batchQueue, st.stream.currentBatch;
    FlattenAppend(q, c);
    Associate(p, Flatten(q), c);
  }

  // The batch of a processor that is past its attempts has left the pipeline.
  lemma AdvanceSeen(env: Env, st: State, p: Processor, a: ProcessorAction)
    requires st.processors == [p] && OrderInv(st) && Advance(env, st, p, a).Some?
    ensures var (p', st') := Advance(env, st, p, a).value;
            && InWindow(st'.history, Pipeline(st'.(processors := [p'])), st.stream.dispatching)
            && ProcessorSeen(st'.history, p')
  {
    var (p', st') := Advance(env, st, p, a).value;
    assert ProcessorSeen(st.history, st.processors[0]);
    if p.Attempting? && !p'.Attempting? {
      AttemptSettles(env, st, p.batch, a);
      WindowLeave(st.history, st'.history, p.batch, Pipeline(st'.(processors := [p'])), st.stream.dispatching);
    } else {
      AdvanceStays(env, st, p, a);
      if p.Counted? && a.BeginAcks? { HighWater.LastKeepsSub(p.batch); }
    }
  }

  lemma AdvanceStays(env: Env, st: State, p: Processor, a: ProcessorAction)
    requires st.processors == [p] && Advance(env, st, p, a).Some?
    requires p.Attempting? ==> Advance(env, st, p, a).value.0.Attempting?
    ensures var (p', st') := Advance(env, st, p, a).value;
            st'.history == st.history && Pipeline(st'.(processors := [p'])) == Pipeline(st)
  {
    if p.Waiting? && a.Take? { TakePipeline(env, st); }
  }

  lemma AttemptSettles(env: Env, st: State, b: seq<Event>, a: ProcessorAction)
    requires st.processors == [Attempting(b)] && Advance(env, st, Attempting(b), a).Some?
    requires !Advance(env, st, Attempting(b), a).value.0.Attempting?
    ensures var (p', st') := Advance(env, st, Attempting(b), a).value;
            && p'.Settled? && p'.batch == b && Pipeline(st) == b + Pipeline(st'.(processors := [p']))
            && Later(st.history, st'.history) && st'.history.accepted == st.history.accepted
            && forall e :: e in b ==> Gone(st'.history, e)
  {
    DropFirst(b, Flatten(st.stream.batchQueue), st.stream.currentBatch);
  }

  lemma DoneCompleted(env: Env, st: State, p: Processor, a: ProcessorAction)
    requires Advance(env, st, p, a).Some? && forall e :: e in st.history.done ==> e in st.record.completed
    ensures var st' := Advance(env, st, p, a).value.1; forall e :: e in st'.history.done ==> e in st'.record.completed
  {
  }

  lemma OrderProcessor(env: Env, st: State, w: nat, a: ProcessorAction)
    requires OneWorkerEach(st) && OrderInv(st) && ProcessorStep(env, st, w, a).Some?
    ensures OrderInv(ProcessorStep(env, st, w, a).value)
  {
    var p := st.processors[0];
    assert st.processors == [p];
    if !a.ExitProcessor? {
      AdvanceFrame(env, st, p, a);
      AdvanceSeen(env, st, p, a);
      DoneCompleted(env, st, p, a);
      assert ProcessorStep(env, st, w, a).value.processors == [Advance(env, st, p, a).value.0];
    }
  }

  lemma OrderControl(env: Env, st: State, a: ControlAction)
    requires OneWorkerEach(st) && OrderInv(st) && ControlStep(st, a).Some?
    ensures OrderInv(ControlStep(st, a).value)
  {
    if a.Crash? {
      assert Window(ControlStep(st, a).value.history, [], 0);
    } else {
      assert Pipeline(ControlStep(st, a).value) == Pipeline(st);
    }
  }

  lemma OrderStep(env: Env, st: State, a: Action)
    requires OneWorkerEach(st) && OrderInv(st) && Step(env, st, a).Some?
    ensures OrderInv(Step(env, st, a).value)
  {
    match a {
      case Subscription(_) =>
      case Dispatcher(d) => OrderDispatcher(env, st, d);
      case Process(w, p) => OrderProcessor(env, st, w, p);
      case Poll(w, l) => TurnFrame(env, st, w, l);
      case Control(c) => OrderControl(env, st, c);
    }
  }
}
