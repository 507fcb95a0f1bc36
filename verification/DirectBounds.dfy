/** The two limits of direct dispatch, on requests in flight and on sends at once, and exactly when each holds. */
module DirectBounds {
  import opened Options
  import opened DirectModel
  import opened DirectDispatch

  ghost predicate Reaches(cfg: Config, actions: seq<Action>, st: State) { Run(cfg, actions) == Some(st) }

  ghost predicate ReachesFresh(cfg: Config, actions: seq<Action>, st: State) {
    FreshRun(cfg, actions) && Reaches(cfg, actions, st)
  }

  lemma ReachesNext(cfg: Config, actions: seq<Action>, st: State, a: Action)
    requires Reaches(cfg, actions, st) && Step(cfg, st, a).Some?
    ensures Reaches(cfg, actions + [a], Step(cfg, st, a).value)
  {
    assert (actions + [a])[..|actions|] == actions;
  }

  lemma FreshNext(cfg: Config, actions: seq<Action>, st: State, a: Action)
    requires ReachesFresh(cfg, actions, st) && FreshId(cfg, st, a) && Step(cfg, st, a).Some?
    ensures ReachesFresh(cfg, actions + [a], Step(cfg, st, a).value)
  {
    var more := actions + [a];
    assert more[..|actions|] == actions;
    forall i | 0 <= i < |more| && Run(cfg, more[..i]).Some? ensures FreshId(cfg, Run(cfg, more[..i]).value, more[i]) {
      if i < |actions| { assert more[..i] == actions[..i]; }
    }
  }

  // --- sends at once ---

  lemma OneAccepted(cfg: Config, msgId: string) returns (actions: seq<Action>, st: State)
    requires cfg.maxInFlight >= 1
    ensures ReachesFresh(cfg, actions, st) && st.inFlight == {msgId}
    ensures |st.requests| == 1 && st.requests[0].phase == Accepted(SendTransaction)
  {
    assert ReachesFresh(cfg, [], Initial());
    FreshNext(cfg, [], Initial(), Dispatch(msgId, SendTransaction));
    actions, st :=
        [] + [Dispatch(msgId, SendTransaction)], Step(cfg, Initial(), Dispatch(msgId, SendTransaction)).value;
    assert {} + {msgId} == {msgId};
  }

  lemma TwoAccepted(cfg: Config) returns (actions: seq<Action>, st: State)
    requires cfg.maxInFlight >= 2
    ensures ReachesFresh(cfg, actions, st)
    ensures |st.requests| == 2 && st.requests[0].phase == st.requests[1].phase == Accepted(SendTransaction)
  {
    var b := Dispatch("b", SendTransaction);
    actions, st := OneAccepted(cfg, "a");
    assert "b"[0] != "a"[0];
    FreshNext(cfg, actions, st, b);
    actions, st := actions + [b], Step(cfg, st, b).value;
  }

  // Request i goes from accepted to being sent; without concurrency nothing can hold it up.
  lemma Sends(cfg: Config, before: seq<Action>, was: State, i: nat) returns (actions: seq<Action>, st: State)
    requires ReachesFresh(cfg, before, was) && cfg.sendConcurrency <= 1
    requires i < |was.requests| && was.requests[i].phase == Accepted(SendTransaction)
    ensures ReachesFresh(cfg, actions, st) && st.requests == Put(was.requests, i, Sending(was.nextId))
  {
    FreshNext(cfg, before, was, Begin(i));
    st := Step(cfg, was, Begin(i)).value;
    actions := before + [Begin(i)];
    FreshNext(cfg, actions, st, StartSend(i));
    st := Step(cfg, st, StartSend(i)).value;
    actions := actions + [StartSend(i)];
  }

  // Without concurrency a send runs on the goroutine of its request and takes no slot: one request more than
  // SendConcurrency can be sending at once.
  lemma OneIsNotSerial(cfg: Config) returns (actions: seq<Action>, st: State)
    requires cfg.sendConcurrency <= 1 && cfg.maxInFlight > cfg.sendConcurrency
    ensures ReachesFresh(cfg, actions, st) && |SlotHolders(st.requests)| == cfg.sendConcurrency + 1
  {
    if cfg.sendConcurrency == 0 {
      actions, st := OneAccepted(cfg, "a");
      actions, st := Sends(cfg, actions, st, 0);
      assert SlotHolders(st.requests) == {0};
    } else {
      actions, st := TwoAccepted(cfg);
      actions, st := Sends(cfg, actions, st, 0);
      actions, st := Sends(cfg, actions, st, 1);
      assert SlotHolders(st.requests) == {0, 1};
    }
  }

  lemma SendersUnanswered(rs: seq<Request>)
    ensures |SlotHolders(rs)| <= |Unanswered(rs)|
  {
    assert Unanswered(rs) == SlotHolders(rs) + (Unanswered(rs) - SlotHolders(rs));
  }

  // No run sends more than SendConcurrency requests at once if and only if sends are concurrent at all, or no
  // more may be in flight anyway.
  lemma SendLimitExactly(cfg: Config)
    ensures (forall actions, st :: ReachesFresh(cfg, actions, st) ==> |SlotHolders(st.requests)| <= cfg.sendConcurrency)
            <==> cfg.sendConcurrency > 1 || cfg.maxInFlight <= cfg.sendConcurrency
  {
    if cfg.sendConcurrency > 1 || cfg.maxInFlight <= cfg.sendConcurrency {
      forall actions, st | ReachesFresh(cfg, actions, st) ensures |SlotHolders(st.requests)| <= cfg.sendConcurrency {
        BoundedWork(cfg, actions);
        SendersUnanswered(st.requests);
      }
    } else {
      var actions, st := OneIsNotSerial(cfg);
    }
  }

  // --- requests in flight ---

  lemma OneMoreUnanswered(rs: seq<Request>, r: Request)
    requires r.phase.Accepted?
    ensures |Unanswered(rs + [r])| == |Unanswered(rs)| + 1
  {
    var more := rs + [r];
    assert more[|rs|] == r && forall i :: 0 <= i < |rs| ==> more[i] == rs[i];
    assert Unanswered(more) == Unanswered(rs) + {|rs|};
  }

  // A request under an ID that is in flight is accepted like any other, and not counted.
  lemma DuplicateIsNotCounted(cfg: Config, st: State, msgId: string, kind: Kind)
    requires Inv(cfg, st) && |st.inFlight| < cfg.maxInFlight
    ensures var st' := Step(cfg, st, Dispatch(msgId, kind)).value;
            |Unanswered(st'.requests)| == |st'.inFlight| <==> msgId !in st.inFlight
  {
    OneMoreUnanswered(st.requests, Request(msgId, Accepted(kind)));
    assert msgId in st.inFlight ==> st.inFlight + {msgId} == st.inFlight;
  }

  // Any number of requests can be unanswered under one ID, counted as one.
  lemma {:induction false} DuplicateEscapes(cfg: Config, msgId: string, n: nat) returns (actions: seq<Action>,
                                            st: State)
    requires cfg.maxInFlight >= 2
    ensures Reaches(cfg, actions, st) && |Unanswered(st.requests)| == n && st.inFlight <= {msgId}
  {
    if n == 0 {
      actions, st := [], Initial();
      assert Unanswered([]) == {};
    } else {
      actions, st := DuplicateEscapes(cfg, msgId, n - 1);
      var a := Dispatch(msgId, SendTransaction);
      FewerInFlight(st.inFlight, {msgId});
      OneMoreUnanswered(st.requests, Request(msgId, Accepted(SendTransaction)));
      ReachesNext(cfg, actions, st, a);
      actions, st := actions + [a], Step(cfg, st, a).value;
    }
  }

  // With room for one only, a request is accepted when nothing is in flight.
  lemma AloneIsFresh(cfg: Config, actions: seq<Action>)
    requires cfg.maxInFlight <= 1
    ensures FreshRun(cfg, actions)
  {
  }

  // Whatever IDs the clients choose, no run has more than MaxInFlight requests unanswered if and only if that
  // limit is at most one.
  lemma FlightLimitExactly(cfg: Config)
    ensures (forall actions, st :: Reaches(cfg, actions, st) ==> |Unanswered(st.requests)| <= cfg.maxInFlight)
            <==> cfg.maxInFlight <= 1
  {
    if cfg.maxInFlight <= 1 {
      forall actions, st | Reaches(cfg, actions, st) ensures |Unanswered(st.requests)| <= cfg.maxInFlight {
        AloneIsFresh(cfg, actions);
        BoundedWork(cfg, actions);
      }
    } else {
      var actions, st := DuplicateEscapes(cfg, "a", cfg.maxInFlight + 1);
    }
  }
}
