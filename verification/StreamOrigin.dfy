/** Where the events in a stream come from, in every run: each is one of the ledger's, of a subscription in a given
    set, and what a processor acknowledges has been delivered or skipped. */
module StreamOrigin {
  import opened Options
  import opened Ledger
  import opened StreamModel
  import opened StreamConservation
  import HighWater

  predicate FromLedger(src: Source, known: set<SubId>, e: Event) {
    e.subId in known && e.subId in src && e.position < |src[e.subId]| && src[e.subId][e.position] == e
  }

  ghost predicate AllFrom(src: Source, known: set<SubId>, events: seq<Event>) {
    forall e :: e in events ==> FromLedger(src, known, e)
  }

  // What a processor holds comes from the ledger; what it acknowledges has been delivered or skipped.
  ghost predicate Honest(src: Source, known: set<SubId>, completed: set<Event>, halted: bool, p: Processor) {
    match p
    case Waiting => true
    case Attempting(b) => AllFrom(src, known, b)
    case Settled(b, _) => AllFrom(src, known, b) && (halted || forall e :: e in b ==> e in completed)
    case Counted(b, _) => AllFrom(src, known, b) && (halted || forall e :: e in b ==> e in completed)
    case Acking(calls) => forall s :: s in calls ==>
        calls[s].subId == s && FromLedger(src, known, calls[s]) && calls[s] in completed
  }

  ghost predicate StreamFrom(src: Source, known: set<SubId>, stream: Stream) {
    && AllFrom(src, known, stream.currentBatch)
    && forall i :: 0 <= i < |stream.batchQueue| ==> AllFrom(src, known, stream.batchQueue[i])
  }

  ghost predicate AllHonest(src: Source, known: set<SubId>, completed: set<Event>, halted: bool, ps: seq<Processor>) {
    forall w :: 0 <= w < |ps| ==> Honest(src, known, completed, halted, ps[w])
  }

  ghost predicate SessionsKnown(known: set<SubId>, subs: Subs) {
    subs.sessions.Keys <= known && forall k :: 0 <= k < |subs.lingering| ==> subs.lingering[k].Keys <= known
  }

  ghost predicate OriginInv(env: Env, known: set<SubId>, st: State) {
    && SessionsKnown(known, st.subs) && StreamFrom(env.source, known, st.stream)
    && AllHonest(env.source, known, st.record.completed, st.stream.SuspendOrStop(), st.processors)
  }

  lemma OriginAccept(env: Env, known: set<SubId>, st: State, s: SubId, i: nat, subs: Subs)
    requires BlockOrdered(env.source) && OriginInv(env, known, st) && s in known && s in env.source
    requires i < |env.source[s]|
    requires SessionsKnown(known, subs)
    ensures OriginInv(env, known, Accept(env, st, env.source[s][i], subs))
  {
    var e := env.source[s][i];
    assert FromLedger(env.source, known, e);
    assert AllFrom(env.source, known, st.stream.currentBatch + [e]);
  }

  lemma OriginDispatcher(env: Env, known: set<SubId>, st: State, a: DispatcherAction)
    requires BlockOrdered(env.source) && OriginInv(env, known, st) && DispatcherStep(env, st, a).Some?
    ensures OriginInv(env, known, DispatcherStep(env, st, a).value)
  {
    match a
    case Receive(s) =>
      OriginAccept(env, known, st, s, st.subs.sessions[s].next, st.subs.(sessions := Moved(st.subs.sessions, s)));
    case ReceiveLate(k, s) =>
      var lingering := st.subs.lingering[k := Moved(st.subs.lingering[k], s)];
      OriginAccept(env, known, st, s, st.subs.lingering[k][s].next, st.subs.(lingering := lingering));
    case Timeout =>
    case CloseDispatcher =>
  }

  lemma HonestAdvance(env: Env, known: set<SubId>, st: State, p: Processor, a: ProcessorAction)
    requires StreamFrom(env.source, known, st.stream) && Advance(env, st, p, a).Some?
    requires Honest(env.source, known, st.record.completed, st.stream.SuspendOrStop(), p)
    ensures var (p', st') := Advance(env, st, p, a).value;
            && st'.stream.SuspendOrStop() == st.stream.SuspendOrStop() && StreamFrom(env.source, known, st'.stream)
            && Honest(env.source, known, st'.record.completed, st.stream.SuspendOrStop(), p')
  {
    if p.Counted? && a.BeginAcks? { HighWater.LastKeepsSub(p.batch); }
  }

  lemma OriginProcessor(env: Env, known: set<SubId>, st: State, w: nat, a: ProcessorAction)
    requires OneWorkerEach(st) && OriginInv(env, known, st) && ProcessorStep(env, st, w, a).Some?
    ensures OriginInv(env, known, ProcessorStep(env, st, w, a).value)
  {
    if !a.ExitProcessor? {
      HonestAdvance(env, known, st, st.processors[w], a);
    }
  }

  lemma OriginPoller(env: Env, known: set<SubId>, st: State, w: nat, a: PollerAction)
    requires OriginInv(env, known, st) && PollerStep(env, st, w, a).Some? && (a.StartFilter? ==> a.sub in known)
    ensures OriginInv(env, known, PollerStep(env, st, w, a).value)
  {
  }

  // A suspended stream starts again without a processor.
  lemma OriginControl(env: Env, known: set<SubId>, st: State, a: ControlAction)
    requires OneWorkerEach(st) && OriginInv(env, known, st) && ControlStep(st, a).Some?
    ensures OriginInv(env, known, ControlStep(st, a).value)
  {
  }

  lemma OriginMore(env: Env, known: set<SubId>, more: set<SubId>, st: State)
    requires OriginInv(env, known, st) && known <= more
    ensures OriginInv(env, more, st)
  {
    forall w | 0 <= w < |st.processors|
      ensures Honest(env.source, more, st.record.completed, st.stream.SuspendOrStop(), st.processors[w])
    {
      assert Honest(env.source, known, st.record.completed, st.stream.SuspendOrStop(), st.processors[w]);
    }
  }

  lemma OriginStep(env: Env, known: set<SubId>, st: State, a: Action)
    requires BlockOrdered(env.source) && OneWorkerEach(st) && OriginInv(env, known, st) && Step(env, st, a).Some?
    requires a.Poll? && a.l.StartFilter? ==> a.l.sub in known
    ensures OriginInv(env, known, Step(env, st, a).value)
  {
    match a {
      case Subscription(s) =>
      case Dispatcher(d) => OriginDispatcher(env, known, st, d);
      case Process(w, p) => OriginProcessor(env, known, st, w, p);
      case Poll(w, l) => OriginPoller(env, known, st, w, l);
      case Control(c) => OriginControl(env, known, st, c);
    }
  }

  // What an acknowledgement is about.
  lemma AckOrigin(env: Env, known: set<SubId>, st: State, w: nat, s: SubId)
    requires OriginInv(env, known, st) && w < |st.processors| && st.processors[w].Acking? && s in st.processors[w].calls
    ensures var e := st.processors[w].calls[s];
            e.subId == s && FromLedger(env.source, known, e) && e in st.record.completed
  {
    assert Honest(env.source, known, st.record.completed, st.stream.SuspendOrStop(), st.processors[w]);
  }
}
