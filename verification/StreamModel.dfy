/** One event stream as a state machine: the dispatcher, processor and poller goroutines of
    internal/events/eventstream.go, the subscriptions they serve, and the stored checkpoint.
    Each action is one stretch of code that no other goroutine can interleave with. */
module StreamModel {
  import opened Options
  import opened Ledger

  const MAX_BATCH_SIZE := 1000

  datatype ErrorHandling = BlockOnError | SkipOnError

  type BatchSize = n: nat | 1 <= n <= MAX_BATCH_SIZE witness 1

  // What stays fixed while a stream runs without being updated.
  datatype Env = Env(batchSize: BatchSize, errorHandling: ErrorHandling, source: Source)

  datatype FromBlock = Newest | Explicit(block: nat) | Unparsable

  // The fields of eventStream guarded by batchCond, and the dispatcher's own batch.
  datatype Stream = Stream(
    suspended: bool, stopped: bool, processorDone: bool, pollerDone: bool, dispatching: bool,
    inFlight: nat, batchQueue: seq<seq<Event>>, batchCount: nat, currentBatch: seq<Event>)
  {
    predicate SuspendOrStop() { suspended || stopped }

    predicate IsBlocked(batchSize: BatchSize) { inFlight >= batchSize }

    function Receive(batchSize: BatchSize, e: Event): Stream {
      var batch := currentBatch + [e];
      if |batch| == batchSize
      then this.(inFlight := inFlight + 1, batchQueue := batchQueue + [batch], currentBatch := [])
      else this.(inFlight := inFlight + 1, currentBatch := batch)
    }

    function Timeout(): Stream {
      this.(batchQueue := batchQueue + [currentBatch], currentBatch := [])
    }

    function Take(): Stream
      requires batchQueue != []
    {
      this.(batchCount := batchCount + 1, batchQueue := batchQueue[1..])
    }

    // inFlight is a uint64: taking off more than it holds would wrap around.
    function CountOff(n: nat): Stream {
      this.(inFlight := if n <= inFlight then inFlight - n else (inFlight - n) % (MAX_UINT64 + 1))
    }

    function Resumed(): Stream {
      if processorDone && pollerDone
      then this.(suspended := false, processorDone := false, pollerDone := false)
      else this
    }
  }

  function Started(suspended: bool): Stream {
    Stream(suspended, false, false, false, true, 0, [], 0, [])
  }

  // Where a batchProcessor goroutine stands.
  datatype Processor =
    | Waiting                                          // in the wait loop
    | Attempting(batch: seq<Event>)                    // in processBatch's retry loop
    | Settled(batch: seq<Event>, processed: bool)      // past the loop, in-flight count not adjusted yet
    | Counted(batch: seq<Event>, processed: bool)      // adjusted, about to look at suspendOrStop
    | Acking(calls: map<SubId, Event>)                 // callbacks still to make

  // Where an eventPoller goroutine stands in its iteration.
  datatype PollPhase = Idle | Starting(todo: set<SubId>) | Copying(todo: set<SubId>, changed: bool) {
    function Todo(): set<SubId> { if Idle? then {} else todo }
  }

  datatype Poller = Poller(phase: PollPhase, subs: set<SubId>, checkpoint: Option<Marks>)

  // A live event subscription on the node: opened at block `since`, next to relay position `next`.
  datatype Session = Session(since: nat, next: nat)

  // The subscriptions as this process sees them: which it knows of, which have a live filter
  // (all others are stale), their high-water marks, and the relays of filters that were unregistered,
  // which still hand over what they had been given.
  datatype Subs = Subs(
    visible: set<SubId>, sessions: map<SubId, Session>, hwm: Marks, lingering: seq<map<SubId, Session>>)

  // What a crash leaves: the stored subscriptions and the stored checkpoint.
  datatype Store = Store(registry: map<SubId, FromBlock>, checkpoint: Marks)

  // What the dispatcher of this process took in, and what became of it.
  datatype History = History(accepted: seq<Event>, done: seq<Event>, abandoned: seq<Event>, unattempted: seq<Event>)

  // Over all processes: the delivered or skipped events, and where each subscription's claim begins.
  datatype Record = Record(completed: set<Event>, floor: map<SubId, nat>)

  datatype State = State(
    stream: Stream, processors: seq<Processor>, pollers: seq<Poller>,
    subs: Subs, store: Store, history: History, record: Record)

  const NEW_POLLER := Poller(Idle, {}, None)

  function Boot(suspended: bool, store: Store, record: Record): State {
    State(
      Started(suspended), [Waiting], [NEW_POLLER],
      Subs({}, map[], map[], []), store, History([], [], [], []), record)
  }

  function Initial(): State {
    Boot(false, Store(map[], map[]), Record({}, map[]))
  }

  datatype SubscriptionAction = Add(sub: SubId, from: FromBlock) | Recover(sub: SubId)

  datatype DispatcherAction = Receive(sub: SubId) | ReceiveLate(round: nat, sub: SubId) | Timeout | CloseDispatcher

  datatype ProcessorAction =
    Take | Deliver | Fail | Hollow | Interrupt | Count | BeginAcks | Ack(sub: SubId) | EndAcks | ExitProcessor

  datatype PollerAction =
    | BeginPoll(loaded: bool)
    | StartFilter(sub: SubId, height: Option<nat>, subscribed: bool)
    | BeginCopy
    | CopyMark(sub: SubId)
    | EndPoll(stored: bool)
    | ExitPoller

  datatype ControlAction = Suspend | Resume | Stop | Crash(suspended: bool)

  datatype Action =
    | Subscription(s: SubscriptionAction)
    | Dispatcher(d: DispatcherAction)
    | Process(w: nat, p: ProcessorAction)
    | Poll(w: nat, l: PollerAction)
    | Control(c: ControlAction)

  function Remove<T>(s: seq<T>, w: nat): seq<T>
    requires w < |s|
  {
    s[..w] + s[w + 1..]
  }

  // --- subscriptions ---

  function SubscriptionStep(st: State, a: SubscriptionAction): Option<State> {
    match a
    case Add(s, from) =>
      if s in st.store.registry then None else
        Some(st.(store := st.store.(registry := st.store.registry[s := from]),
                 subs := st.subs.(visible := st.subs.visible + {s}),
                 record := if from.Explicit? then st.record.(floor := st.record.floor[s := from.block]) else st.record))
    case Recover(s) =>
      if s in st.store.registry then Some(st.(subs := st.subs.(visible := st.subs.visible + {s}))) else None
  }

  // --- dispatcher ---

  predicate CanReceive(env: Env, st: State, s: SubId) {
    && st.stream.dispatching && !st.stream.stopped
    && s in st.subs.sessions && s in env.source && st.subs.sessions[s].next < |env.source[s]|
  }

  function NextEvent(env: Env, st: State, s: SubId): Event
    requires CanReceive(env, st, s)
  {
    env.source[s][st.subs.sessions[s].next]
  }

  predicate CanReceiveLate(env: Env, st: State, k: nat, s: SubId) {
    && st.stream.dispatching && !st.stream.stopped
    && k < |st.subs.lingering| && s in st.subs.lingering[k] && s in env.source
    && st.subs.lingering[k][s].next < |env.source[s]|
  }

  function LateEvent(env: Env, st: State, k: nat, s: SubId): Event
    requires CanReceiveLate(env, st, k, s)
  {
    env.source[s][st.subs.lingering[k][s].next]
  }

  function Accept(env: Env, st: State, e: Event, subs: Subs): State {
    st.(stream := st.stream.Receive(env.batchSize, e), subs := subs,
        history := st.history.(accepted := st.history.accepted + [e]))
  }

  function Moved(sessions: map<SubId, Session>, s: SubId): map<SubId, Session>
    requires s in sessions
  {
    sessions[s := sessions[s].(next := sessions[s].next + 1)]
  }

  function DispatcherStep(env: Env, st: State, a: DispatcherAction): Option<State> {
    match a
    case Receive(s) =>
      if !CanReceive(env, st, s) then None
      else Some(Accept(env, st, NextEvent(env, st, s), st.subs.(sessions := Moved(st.subs.sessions, s))))
    case ReceiveLate(k, s) =>
      if !CanReceiveLate(env, st, k, s) then None
      else Some(Accept(env, st, LateEvent(env, st, k, s),
                       st.subs.(lingering := st.subs.lingering[k := Moved(st.subs.lingering[k], s)])))
    case Timeout =>
      if !st.stream.dispatching || st.stream.currentBatch == [] then None
      else Some(st.(stream := st.stream.Timeout()))
    case CloseDispatcher =>
      // the channel is closed on stop: the dispatcher returns and its current batch goes with it
      if !st.stream.dispatching || !st.stream.stopped then None
      else Some(st.(stream := st.stream.(dispatching := false, currentBatch := []),
                    history := st.history.(abandoned := st.history.abandoned + st.stream.currentBatch)))
  }

  // --- processor ---

  // The action succeeded, or every retry failed and the stream skips.
  function Complete(st: State, b: seq<Event>): State {
    st.(history := st.history.(done := st.history.done + b),
        record := st.record.(completed := st.record.completed + set e | e in b))
  }

  // What one action makes of the goroutine's place and of everything else; None where it cannot be taken.
  function Advance(env: Env, st: State, p: Processor, a: ProcessorAction): Option<(Processor, State)> {
    match (p, a)
    case (Waiting, Take) =>
      if st.stream.SuspendOrStop() || st.stream.batchQueue == [] then None
      else Some((Attempting(st.stream.batchQueue[0]), st.(stream := st.stream.Take())))
    case (Attempting(b), Deliver) =>
      Some((Settled(b, true), Complete(st, b)))
    case (Attempting(b), Fail) =>
      if env.errorHandling.SkipOnError? then Some((Settled(b, true), Complete(st, b))) else Some((p, st))
    case (Attempting(b), Hollow) =>
      // suspended between the outer loop's test and the first attempt: the inner loop is never
      // entered, its error stays nil, and the batch passes for processed
      if !st.stream.SuspendOrStop() then None
      else Some((Settled(b, true), st.(history := st.history.(unattempted := st.history.unattempted + b))))
    case (Attempting(b), Interrupt) =>
      if !st.stream.SuspendOrStop() then None
      else Some((Settled(b, false), st.(history := st.history.(abandoned := st.history.abandoned + b))))
    case (Settled(b, processed), Count) =>
      Some((Counted(b, processed), if processed then st.(stream := st.stream.CountOff(|b|)) else st))
    case (Counted(b, processed), BeginAcks) =>
      Some((if st.stream.SuspendOrStop() then Waiting else Acking(LastPerSub(b)), st))
    case (Acking(calls), Ack(s)) =>
      if s !in calls then None
      else Some((Acking(calls - {s}), st.(subs := st.subs.(hwm := Raise(st.subs.hwm, calls[s])))))
    case (Acking(calls), EndAcks) =>
      if calls != map[] then None else Some((Waiting, st))
    case _ => None
  }

  function ProcessorStep(env: Env, st: State, w: nat, a: ProcessorAction): Option<State> {
    if w >= |st.processors| then None
    else if a.ExitProcessor? then
      if !st.processors[w].Waiting? || !st.stream.SuspendOrStop() then None
      else Some(st.(processors := Remove(st.processors, w), stream := st.stream.(processorDone := true)))
    else
      var r := Advance(env, st, st.processors[w], a);
      if r.None? then None else Some(r.value.1.(processors := st.processors[w := r.value.0]))
  }

  // --- poller ---

  function Loaded(st: State, cp: Option<Marks>, loaded: bool): Option<Marks> {
    if cp.Some? && cp.value != map[] then cp else if loaded then Some(st.store.checkpoint) else None
  }

  // The block a filter is opened at, and whether the mark is set to it.
  datatype Opening = Opening(since: nat, setsMark: bool)

  function OpeningOf(from: FromBlock, checkpoint: nat, height: Option<nat>): Option<Opening> {
    if checkpoint > 0 then Some(Opening(checkpoint, true)) else
      match from
      case Explicit(b) => Some(Opening(b, false))
      case Unparsable => None
      case Newest => if height.Some? then Some(Opening(height.value, true)) else None
  }

  function Open(env: Env, s: SubId, since: nat): Session {
    Session(since, if s in env.source then FirstFrom(env.source[s], since) else 0)
  }

  function Start(env: Env, subs: Subs, s: SubId, o: Option<Opening>, subscribed: bool): Subs {
    if s in subs.sessions || o.None? then subs
    else
      subs.(hwm := if o.value.setsMark then subs.hwm[s := o.value.since] else subs.hwm,
            sessions := if subscribed then subs.sessions[s := Open(env, s, o.value.since)] else subs.sessions)
  }

  // A "newest" subscription's claim begins at the first height ever stored for it.
  function Floors(floor: map<SubId, nat>, cp: Marks): map<SubId, nat> {
    map s | s in floor.Keys + cp.Keys && (s in floor || At(cp, s) > 0) :: if s in floor then floor[s] else cp[s]
  }

  function Turn(env: Env, st: State, p: Poller, a: PollerAction): Option<(Poller, State)> {
    match (p.phase, a)
    case (Idle, BeginPoll(loaded)) =>
      if st.stream.SuspendOrStop() then None else
        var cp := Loaded(st, p.checkpoint, loaded);
        var phase :=
          if cp.None? then Idle
          else if st.stream.IsBlocked(env.batchSize) then Copying(st.subs.visible, false)
          else Starting(st.subs.visible);
        Some((Poller(phase, st.subs.visible, cp), st))
    case (Starting(todo), StartFilter(s, height, subscribed)) =>
      if s !in todo || p.checkpoint.None? || s !in st.store.registry then None else
        var o := OpeningOf(st.store.registry[s], At(p.checkpoint.value, s), height);
        Some((p.(phase := Starting(todo - {s})), st.(subs := Start(env, st.subs, s, o, subscribed))))
    case (Starting(todo), BeginCopy) =>
      if todo != {} then None else Some((p.(phase := Copying(p.subs, false)), st))
    case (Copying(todo, changed), CopyMark(s)) =>
      if s !in todo || p.checkpoint.None? then None else
        var cp, mark := p.checkpoint.value, At(st.subs.hwm, s);
        var changed' := changed || At(cp, s) == 0 || At(cp, s) != mark;
        Some((p.(phase := Copying(todo - {s}, changed'), checkpoint := Some(cp[s := mark])), st))
    case (Copying(todo, changed), EndPoll(stored)) =>
      if todo != {} || p.checkpoint.None? then None else
        var cp := p.checkpoint.value;
        Some((p.(phase := Idle),
              if changed && stored
              then st.(store := st.store.(checkpoint := cp), record := st.record.(floor := Floors(st.record.floor, cp)))
              else st))
    case _ => None
  }

  function PollerStep(env: Env, st: State, w: nat, a: PollerAction): Option<State> {
    if w >= |st.pollers| then None
    else if a.ExitPoller? then
      // on its way out the poller unregisters every filter; their relays finish what they hold
      if !st.pollers[w].phase.Idle? || !st.stream.SuspendOrStop() then None
      else Some(st.(pollers := Remove(st.pollers, w),
                    subs := st.subs.(sessions := map[], lingering := st.subs.lingering + [st.subs.sessions]),
                    stream := st.stream.(pollerDone := true)))
    else
      var r := Turn(env, st, st.pollers[w], a);
      if r.None? then None else Some(r.value.1.(pollers := st.pollers[w := r.value.0]))
  }

  // --- control ---

  function ControlStep(st: State, a: ControlAction): Option<State> {
    match a
    case Suspend => Some(st.(stream := st.stream.(suspended := true)))
    case Stop => if st.stream.stopped then None else Some(st.(stream := st.stream.(stopped := true)))
    case Resume =>
      if st.stream.processorDone && st.stream.pollerDone
      then Some(st.(stream := st.stream.Resumed(),
                    processors := st.processors + [Waiting], pollers := st.pollers + [NEW_POLLER]))
      else Some(st)
    case Crash(suspended) => Some(Boot(suspended, st.store, st.record))
  }

  // One action, or None where the code cannot take it in this state.
  function Step(env: Env, st: State, a: Action): Option<State> {
    match a
    case Subscription(s) => SubscriptionStep(st, s)
    case Dispatcher(d) => DispatcherStep(env, st, d)
    case Process(w, p) => ProcessorStep(env, st, w, p)
    case Poll(w, l) => PollerStep(env, st, w, l)
    case Control(c) => ControlStep(st, c)
  }

  function Run(env: Env, st: State, actions: seq<Action>): Option<State> {
    if actions == [] then Some(st) else
      var before := Run(env, st, actions[..|actions| - 1]);
      if before.None? then None else Step(env, before.value, actions[|actions| - 1])
  }
}
