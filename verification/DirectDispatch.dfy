/** What every run of direct dispatch keeps: bounded work in flight, and exactly one reply each. */
module DirectDispatch {
  import opened Options
  import opened DirectModel

  // --- the three ledgers, each over the part of the state it needs ---

  function Unanswered(rs: seq<Request>): set<nat> { set i | 0 <= i < |rs| && !rs[i].phase.Answered() }

  function SlotHolders(rs: seq<Request>): set<nat> { set i | 0 <= i < |rs| && rs[i].phase.HasSlot() }

  // The handler's map holds the unanswered requests, each under its own ID.
  ghost predicate MapExact(rs: seq<Request>, inFlight: set<string>) {
    && |Unanswered(rs)| == |inFlight|
    && (forall i :: 0 <= i < |rs| && !rs[i].phase.Answered() ==> rs[i].msgId in inFlight)
    && (forall i, j :: 0 <= i < j < |rs| && !rs[i].phase.Answered() && !rs[j].phase.Answered() ==>
         rs[i].msgId != rs[j].msgId)
  }

  // The processor's list holds exactly the requests being sent or settled, in the order they were added.
  ghost predicate ListExact(rs: seq<Request>, txs: seq<nat>, nextId: nat) {
    && (forall a, b :: 0 <= a < b < |txs| ==> txs[a] < txs[b])
    && (forall a :: 0 <= a < |txs| ==> txs[a] < nextId)
    && (forall i :: 0 <= i < |rs| && rs[i].phase.InList() ==> rs[i].phase.n in txs)
    && (forall i, j :: 0 <= i < j < |rs| && rs[i].phase.InList() && rs[j].phase.InList() ==>
         rs[i].phase.n != rs[j].phase.n)
    && (forall n :: n in txs ==> exists i :: 0 <= i < |rs| && rs[i].phase.InList() && rs[i].phase.n == n)
  }

  ghost predicate SlotsExact(cfg: Config, rs: seq<Request>, slots: nat) {
    if cfg.sendConcurrency <= 1 then slots == 0 else slots == |SlotHolders(rs)| <= cfg.sendConcurrency
  }

  // The requests that have a receipt, in order.
  function Told(receipts: seq<Answer>): seq<nat> {
    seq(|receipts|, k requires 0 <= k < |receipts| => receipts[k].i)
  }

  // Each answered request has one receipt, and no other has any.
  ghost predicate OneReplyEach(rs: seq<Request>, receipts: seq<nat>) {
    && (forall a :: 0 <= a < |receipts| ==> receipts[a] < |rs| && rs[receipts[a]].phase.Answered())
    && (forall a, b :: 0 <= a < b < |receipts| ==> receipts[a] != receipts[b])
    && (forall i :: 0 <= i < |rs| && rs[i].phase.Answered() ==> i in receipts)
  }

  ghost predicate Inv(cfg: Config, st: State) {
    && MapExact(st.requests, st.inFlight) && |st.inFlight| <= cfg.maxInFlight
    && ListExact(st.requests, st.txs, st.nextId)
    && SlotsExact(cfg, st.requests, st.slots)
    && OneReplyEach(st.requests, Told(st.receipts))
  }

  // --- how each ledger moves ---

  function Put(rs: seq<Request>, i: nat, phase: Phase): seq<Request>
    requires i < |rs|
  {
    rs[i := rs[i].(phase := phase)]
  }

  lemma MapKept(rs: seq<Request>, inFlight: set<string>, i: nat, phase: Phase)
    requires MapExact(rs, inFlight) && i < |rs| && phase.Answered() == rs[i].phase.Answered()
    ensures MapExact(Put(rs, i, phase), inFlight)
  {
    assert Unanswered(Put(rs, i, phase)) == Unanswered(rs);
  }

  lemma MapReply(rs: seq<Request>, inFlight: set<string>, i: nat, phase: Phase)
    requires MapExact(rs, inFlight) && i < |rs| && !rs[i].phase.Answered() && phase.Answered()
    ensures MapExact(Put(rs, i, phase), inFlight - {rs[i].msgId}) && rs[i].msgId in inFlight
  {
    assert Unanswered(Put(rs, i, phase)) == Unanswered(rs) - {i};
  }

  lemma MapDispatch(rs: seq<Request>, inFlight: set<string>, msgId: string, kind: Kind)
    requires MapExact(rs, inFlight) && msgId !in inFlight
    ensures MapExact(rs + [Request(msgId, Accepted(kind))], inFlight + {msgId})
  {
    var more := rs + [Request(msgId, Accepted(kind))];
    assert |Unanswered(more)| == |inFlight + {msgId}| by { assert Unanswered(more) == Unanswered(rs) + {|rs|}; }
    forall i, j | 0 <= i < j < |more| && !more[i].phase.Answered() && !more[j].phase.Answered()
      ensures more[i].msgId != more[j].msgId
    {
      assert more[i] == rs[i];
    }
  }

  lemma {:induction false} WithoutMeans(txs: seq<nat>, n: nat)
    requires forall a, b :: 0 <= a < b < |txs| ==> txs[a] < txs[b]
    ensures forall a, b :: 0 <= a < b < |Without(txs, n)| ==> Without(txs, n)[a] < Without(txs, n)[b]
    ensures forall m :: m in Without(txs, n) <==> m in txs && m != n
  {
    if txs == [] {
    } else {
      var rest := txs[1..];
      assert txs == [txs[0]] + rest;
      forall m | m in rest ensures txs[0] < m {
        var a :| 0 <= a < |rest| && rest[a] == m;
      }
      if txs[0] != n {
        WithoutMeans(rest, n);
        var left := Without(rest, n);
        forall a | 0 <= a < |left| ensures txs[0] < left[a] {
          assert left[a] in rest;
        }
      }
    }
  }

  lemma ListKept(rs: seq<Request>, txs: seq<nat>, nextId: nat, i: nat, phase: Phase)
    requires ListExact(rs, txs, nextId) && i < |rs|
    requires if rs[i].phase.InList() then phase.InList() && phase.n == rs[i].phase.n else !phase.InList()
    ensures ListExact(Put(rs, i, phase), txs, nextId)
  {
    var rs' := Put(rs, i, phase);
    forall n | n in txs ensures exists j :: 0 <= j < |rs'| && rs'[j].phase.InList() && rs'[j].phase.n == n {
      var j :| 0 <= j < |rs| && rs[j].phase.InList() && rs[j].phase.n == n;
      assert rs'[j].phase.InList() && rs'[j].phase.n == n;
    }
  }

  lemma ListAdd(rs: seq<Request>, txs: seq<nat>, nextId: nat, i: nat)
    requires ListExact(rs, txs, nextId) && i < |rs| && !rs[i].phase.InList()
    ensures ListExact(Put(rs, i, Listed(nextId)), txs + [nextId], nextId + 1)
  {
    var rs' := Put(rs, i, Listed(nextId));
    forall n | n in txs + [nextId] ensures exists j :: 0 <= j < |rs'| && rs'[j].phase.InList() && rs'[j].phase.n == n {
      if n == nextId {
        assert rs'[i].phase.InList() && rs'[i].phase.n == n;
      } else {
        var j :| 0 <= j < |rs| && rs[j].phase.InList() && rs[j].phase.n == n;
        assert rs'[j].phase.InList() && rs'[j].phase.n == n;
      }
    }
  }

  lemma ListCancel(rs: seq<Request>, txs: seq<nat>, nextId: nat, i: nat, phase: Phase)
    requires ListExact(rs, txs, nextId) && i < |rs| && rs[i].phase.InList() && !phase.InList()
    ensures ListExact(Put(rs, i, phase), Without(txs, rs[i].phase.n), nextId)
  {
    var rs', n0 := Put(rs, i, phase), rs[i].phase.n;
    var left := Without(txs, n0);
    WithoutMeans(txs, n0);
    forall a | 0 <= a < |left| ensures left[a] < nextId { assert left[a] in txs; }
    forall n | n in left ensures exists j :: 0 <= j < |rs'| && rs'[j].phase.InList() && rs'[j].phase.n == n {
      var j :| 0 <= j < |rs| && rs[j].phase.InList() && rs[j].phase.n == n;
      assert rs'[j].phase.InList() && rs'[j].phase.n == n;
    }
  }

  lemma ListDispatch(rs: seq<Request>, txs: seq<nat>, nextId: nat, r: Request)
    requires ListExact(rs, txs, nextId) && r.phase.Accepted?
    ensures ListExact(rs + [r], txs, nextId)
  {
    var rs' := rs + [r];
    forall n | n in txs ensures exists j :: 0 <= j < |rs'| && rs'[j].phase.InList() && rs'[j].phase.n == n {
      var j :| 0 <= j < |rs| && rs[j].phase.InList() && rs[j].phase.n == n;
      assert rs'[j] == rs[j];
    }
  }

  lemma SlotsMove(rs: seq<Request>, i: nat, phase: Phase)
    requires i < |rs|
    ensures SlotHolders(Put(rs, i, phase)) == if phase.HasSlot() then SlotHolders(rs) + {i} else SlotHolders(rs) - {i}
    ensures i in SlotHolders(rs) <==> rs[i].phase.HasSlot()
  {
  }

  lemma RepliesKept(rs: seq<Request>, receipts: seq<nat>, i: nat, phase: Phase)
    requires OneReplyEach(rs, receipts) && i < |rs| && phase.Answered() == rs[i].phase.Answered()
    ensures OneReplyEach(Put(rs, i, phase), receipts)
  {
  }

  lemma RepliesOne(rs: seq<Request>, receipts: seq<nat>, i: nat, phase: Phase)
    requires OneReplyEach(rs, receipts) && i < |rs| && !rs[i].phase.Answered() && phase.Answered()
    ensures OneReplyEach(Put(rs, i, phase), receipts + [i])
  {
  }

  lemma SlotsDispatch(rs: seq<Request>, r: Request)
    requires r.phase.Accepted?
    ensures SlotHolders(rs + [r]) == SlotHolders(rs)
  {
  }

  // --- steps ---

  lemma InvDispatch(cfg: Config, st: State, msgId: string, kind: Kind)
    requires Inv(cfg, st) && FreshId(cfg, st, Dispatch(msgId, kind))
    ensures Inv(cfg, Step(cfg, st, Dispatch(msgId, kind)).value)
  {
    if |st.inFlight| < cfg.maxInFlight {
      var r := Request(msgId, Accepted(kind));
      MapDispatch(st.requests, st.inFlight, msgId, kind);
      ListDispatch(st.requests, st.txs, st.nextId, r);
      SlotsDispatch(st.requests, r);
    }
  }

  // How the number of senders moves with one request's phase.
  lemma SlotsCount(rs: seq<Request>, i: nat, phase: Phase)
    requires i < |rs|
    ensures |SlotHolders(Put(rs, i, phase))| + (if rs[i].phase.HasSlot() then 1 else 0)
            == |SlotHolders(rs)| + if phase.HasSlot() then 1 else 0
  {
    SlotsMove(rs, i, phase);
    if rs[i].phase.HasSlot() == phase.HasSlot() {
      assert SlotHolders(Put(rs, i, phase)) == SlotHolders(rs);
    }
  }

  lemma StepSlots(cfg: Config, st: State, a: Action)
    requires !a.Dispatch? && Step(cfg, st, a).Some?
    ensures var st' := Step(cfg, st, a).value;
            && a.i < |st.requests| && st'.requests == Put(st.requests, a.i, st'.requests[a.i].phase)
            && if cfg.sendConcurrency <= 1 then st'.slots == st.slots
               else
                 && (st'.slots > st.slots ==> st'.slots <= cfg.sendConcurrency)
                 && st'.slots + (if st.requests[a.i].phase.HasSlot() then 1 else 0)
                    == st.slots + if st'.requests[a.i].phase.HasSlot() then 1 else 0
  {
  }

  // Slots are taken and given back in step with the sends.
  lemma SlotsStep(cfg: Config, st: State, a: Action)
    requires SlotsExact(cfg, st.requests, st.slots) && !a.Dispatch? && Step(cfg, st, a).Some?
    ensures SlotsExact(cfg, Step(cfg, st, a).value.requests, Step(cfg, st, a).value.slots)
  {
    StepSlots(cfg, st, a);
    SlotsCount(st.requests, a.i, Step(cfg, st, a).value.requests[a.i].phase);
  }

  lemma ListStep(cfg: Config, st: State, a: Action)
    requires ListExact(st.requests, st.txs, st.nextId) && !a.Dispatch? && Step(cfg, st, a).Some?
    ensures var st' := Step(cfg, st, a).value; ListExact(st'.requests, st'.txs, st'.nextId)
  {
    var i, st' := a.i, Step(cfg, st, a).value;
    var was, now := st.requests[i].phase, st'.requests[i].phase;
    assert st'.requests == Put(st.requests, i, now);
    if was.Accepted? && now.Listed? {
      ListAdd(st.requests, st.txs, st.nextId, i);
    } else if was.InList() && !now.InList() {
      ListCancel(st.requests, st.txs, st.nextId, i, now);
    } else {
      ListKept(st.requests, st.txs, st.nextId, i, now);
    }
  }

  // A step of request i moves its phase, and answers it or leaves receipts and map alone.
  lemma StepMoves(cfg: Config, st: State, a: Action)
    requires !a.Dispatch? && Step(cfg, st, a).Some?
    ensures var st' := Step(cfg, st, a).value;
            && a.i < |st.requests| == |st'.requests| && st'.requests == Put(st.requests, a.i, st'.requests[a.i].phase)
            && var was, now := st.requests[a.i].phase, st'.requests[a.i].phase;
               if was.Answered() == now.Answered() then st'.receipts == st.receipts && st'.inFlight == st.inFlight
               else
                 && now.Answered() && Told(st'.receipts) == Told(st.receipts) + [a.i]
                 && st'.inFlight == st.inFlight - {st.requests[a.i].msgId}
  {
  }

  lemma RepliesStep(cfg: Config, st: State, a: Action)
    requires MapExact(st.requests, st.inFlight) && OneReplyEach(st.requests, Told(st.receipts)) && !a.Dispatch?
    requires Step(cfg, st, a).Some?
    ensures var st' := Step(cfg, st, a).value;
            && MapExact(st'.requests, st'.inFlight) && st'.inFlight <= st.inFlight
            && OneReplyEach(st'.requests, Told(st'.receipts))
  {
    StepMoves(cfg, st, a);
    var was, now := st.requests[a.i].phase, Step(cfg, st, a).value.requests[a.i].phase;
    if was.Answered() == now.Answered() {
      MapKept(st.requests, st.inFlight, a.i, now);
      RepliesKept(st.requests, Told(st.receipts), a.i, now);
    } else {
      MapReply(st.requests, st.inFlight, a.i, now);
      RepliesOne(st.requests, Told(st.receipts), a.i, now);
    }
  }

  lemma FewerInFlight(a: set<string>, b: set<string>)
    requires a <= b
    ensures |a| <= |b|
  {
    assert b == a + (b - a);
  }

  lemma InvStep(cfg: Config, st: State, a: Action)
    requires Inv(cfg, st) && FreshId(cfg, st, a) && Step(cfg, st, a).Some?
    ensures Inv(cfg, Step(cfg, st, a).value)
  {
    if a.Dispatch? {
      InvDispatch(cfg, st, a.msgId, a.kind);
    } else {
      SlotsStep(cfg, st, a);
      ListStep(cfg, st, a);
      RepliesStep(cfg, st, a);
      FewerInFlight(Step(cfg, st, a).value.inFlight, st.inFlight);
    }
  }

  lemma {:induction false} InvRun(cfg: Config, actions: seq<Action>)
    requires FreshRun(cfg, actions) && Run(cfg, actions).Some?
    ensures Inv(cfg, Run(cfg, actions).value)
  {
    if actions == [] {
    } else {
      var n := |actions| - 1;
      var front := actions[..n];
      assert actions[..n] == front;
      forall i | 0 <= i < n && Run(cfg, front[..i]).Some? ensures FreshId(cfg, Run(cfg, front[..i]).value, front[i]) {
        assert front[..i] == actions[..i];
      }
      InvRun(cfg, front);
      InvStep(cfg, Run(cfg, front).value, actions[n]);
    }
  }

  // At no time are more than MaxInFlight requests unanswered, nor, when sends run concurrently at all,
  // more than SendConcurrency of them being sent.
  lemma BoundedWork(cfg: Config, actions: seq<Action>)
    requires FreshRun(cfg, actions) && Run(cfg, actions).Some?
    ensures var rs := Run(cfg, actions).value.requests;
            && |Unanswered(rs)| <= cfg.maxInFlight
            && (cfg.sendConcurrency > 1 ==> |SlotHolders(rs)| <= cfg.sendConcurrency)
  {
    InvRun(cfg, actions);
  }

  // --- every request is answered ---

  function Left(rs: seq<Request>): nat {
    if rs == [] then 0 else Left(rs[..|rs| - 1]) + rs[|rs| - 1].phase.Rank()
  }

  lemma {:induction false} LeftMove(rs: seq<Request>, i: nat, phase: Phase)
    requires i < |rs|
    ensures Left(Put(rs, i, phase)) == Left(rs) - rs[i].phase.Rank() + phase.Rank()
  {
    var n, rs' := |rs| - 1, Put(rs, i, phase);
    if i < n {
      LeftMove(rs[..n], i, phase);
      assert rs'[..n] == Put(rs[..n], i, phase);
    } else {
      assert rs'[..n] == rs[..n];
    }
  }

  // Every step of a request brings all of them closer to the end.
  lemma EveryStepCounts(cfg: Config, st: State, a: Action)
    requires !a.Dispatch? && Step(cfg, st, a).Some?
    ensures Left(Step(cfg, st, a).value.requests) < Left(st.requests)
  {
    var st' := Step(cfg, st, a).value;
    LeftMove(st.requests, a.i, st'.requests[a.i].phase);
    assert st'.requests == Put(st.requests, a.i, st'.requests[a.i].phase);
  }

  function RunFrom(cfg: Config, st: State, steps: seq<Action>): Option<State>
    decreases |steps|
  {
    if steps == [] then Some(st) else
      var next := Step(cfg, st, steps[0]);
      if next.None? then None else RunFrom(cfg, next.value, steps[1..])
  }

  // Without new requests, no run goes on for ever.
  lemma {:induction false} RunsEnd(cfg: Config, st: State, steps: seq<Action>)
    requires (forall k :: 0 <= k < |steps| ==> !steps[k].Dispatch?) && RunFrom(cfg, st, steps).Some?
    ensures |steps| + Left(RunFrom(cfg, st, steps).value.requests) <= Left(st.requests)
    decreases |steps|
  {
    if steps == [] {
    } else {
      EveryStepCounts(cfg, st, steps[0]);
      RunsEnd(cfg, Step(cfg, st, steps[0]).value, steps[1..]);
    }
  }

  // The step an unfinished request takes next.
  function NextStep(i: nat, phase: Phase): Action
    requires !phase.Finished?
  {
    match phase
    case Accepted(_) => Begin(i)
    case Listed(_) => StartSend(i)
    case Sending(_) => EndSend(i, true)
    case Sent(_, _) => FreeSlot(i)
    case Released(_, _) => Settle(i)
    case Replied(_) => Close(i)
    case Cancelled(_) => Close(i)
  }

  lemma StepsUnlessWaiting(cfg: Config, st: State, i: nat)
    requires Inv(cfg, st) && i < |st.requests| && !st.requests[i].phase.Finished?
    ensures Step(cfg, st, NextStep(i, st.requests[i].phase)).Some?
            <==>
            !(&& st.requests[i].phase.Listed? && cfg.sendConcurrency > 1
              && |SlotHolders(st.requests)| == cfg.sendConcurrency)
  {
    if st.requests[i].phase.Sent? && cfg.sendConcurrency > 1 {
      assert i in SlotHolders(st.requests);
    }
  }

  // While some request is unfinished, some request can take a step.
  lemma NoDeadlock(cfg: Config, st: State)
    requires Inv(cfg, st) && exists i :: 0 <= i < |st.requests| && !st.requests[i].phase.Finished?
    ensures exists i ::
              0 <= i < |st.requests| && !st.requests[i].phase.Finished?
                  && Step(cfg, st, NextStep(i, st.requests[i].phase)).Some?
  {
    var i :| 0 <= i < |st.requests| && !st.requests[i].phase.Finished?;
    StepsUnlessWaiting(cfg, st, i);
    if Step(cfg, st, NextStep(i, st.requests[i].phase)).None? {
      assert SlotHolders(st.requests) != {};
      var j :| j in SlotHolders(st.requests);
      StepsUnlessWaiting(cfg, st, j);
      assert Step(cfg, st, NextStep(j, st.requests[j].phase)).Some?;
    }
  }

  // Once all are finished, nothing is left behind, and each request has had exactly one reply.
  lemma NothingLeft(cfg: Config, st: State)
    requires Inv(cfg, st) && forall i :: 0 <= i < |st.requests| ==> st.requests[i].phase.Finished?
    ensures st.inFlight == {} && st.txs == [] && st.slots == 0
    ensures forall i :: 0 <= i < |st.requests| ==> multiset(Told(st.receipts))[i] == 1
  {
    assert Unanswered(st.requests) == {} && SlotHolders(st.requests) == {};
    HasFirst(st.txs);
    forall i | 0 <= i < |st.requests| ensures multiset(Told(st.receipts))[i] == 1 {
      OnceInDistinct(Told(st.receipts), i);
    }
  }

  lemma HasFirst<T>(s: seq<T>)
    ensures s != [] ==> exists x :: x in s
  {
    if s != [] { assert s[0] in s; }
  }

  lemma {:induction false} OnceInDistinct(s: seq<nat>, x: nat)
    requires x in s && forall a, b :: 0 <= a < b < |s| ==> s[a] != s[b]
    ensures multiset(s)[x] == 1
  {
    var n := |s| - 1;
    assert s == s[..n] + [s[n]];
    if s[n] != x { OnceInDistinct(s[..n], x); } else { assert x !in multiset(s[..n]); }
  }
}
