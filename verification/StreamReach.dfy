/** The states some run leads to, when every step it takes meets a given condition. */
module StreamReach {
  import opened Options
  import opened Ledger
  import opened StreamModel

  // Every step of the run meets the condition.
  ghost predicate Meets(env: Env, from: State, ok: (State, Action) -> bool, actions: seq<Action>) {
    forall i :: 0 <= i < |actions| && Run(env, from, actions[..i]).Some? ==>
        ok(Run(env, from, actions[..i]).value, actions[i])
  }

  lemma MeetsPrefix(env: Env, from: State, ok: (State, Action) -> bool, actions: seq<Action>, n: nat)
    requires Meets(env, from, ok, actions) && n <= |actions|
    ensures Meets(env, from, ok, actions[..n])
  {
    forall i | 0 <= i < n && Run(env, from, actions[..n][..i]).Some?
      ensures ok(Run(env, from, actions[..n][..i]).value, actions[..n][i])
    {
      assert actions[..n][..i] == actions[..i];
    }
  }

  lemma MeetsNext(env: Env, from: State, ok: (State, Action) -> bool, actions: seq<Action>, n: nat)
    requires n < |actions| && Meets(env, from, ok, actions[..n])
    requires Run(env, from, actions[..n]).Some? ==> ok(Run(env, from, actions[..n]).value, actions[n])
    ensures Meets(env, from, ok, actions[..n + 1])
  {
    var front, more := actions[..n], actions[..n + 1];
    forall i | 0 <= i < |more| && Run(env, from, more[..i]).Some? ensures ok(Run(env, from, more[..i]).value, more[i]) {
      if i < n {
        assert front[..i] == more[..i] && front[i] == more[i];
      } else {
        assert more[..i] == front;
      }
    }
  }

  ghost predicate Leads(env: Env, from: State, ok: (State, Action) -> bool, actions: seq<Action>, st: State) {
    Run(env, from, actions) == Some(st) && Meets(env, from, ok, actions)
  }

  ghost predicate Reachable(env: Env, from: State, ok: (State, Action) -> bool, st: State) {
    exists actions :: Leads(env, from, ok, actions, st)
  }

  lemma ReachableFirst(env: Env, from: State, ok: (State, Action) -> bool)
    ensures Reachable(env, from, ok, from)
  {
    assert Leads(env, from, ok, [], from);
  }

  lemma ReachableNext(env: Env, from: State, ok: (State, Action) -> bool, st: State, a: Action)
    requires Reachable(env, from, ok, st) && ok(st, a) && Step(env, st, a).Some?
    ensures Reachable(env, from, ok, Step(env, st, a).value)
  {
    var actions :| Leads(env, from, ok, actions, st);
    var more := actions + [a];
    assert more[..|actions|] == actions;
    forall i | 0 <= i < |more| && Run(env, from, more[..i]).Some? ensures ok(Run(env, from, more[..i]).value, more[i]) {
      if i < |actions| { assert more[..i] == actions[..i]; }
    }
    assert Leads(env, from, ok, more, Step(env, st, a).value);
  }

  // A poller about to copy the mark of its only subscription copies it and stores it.
  lemma MarkStored(env: Env, from: State, ok: (State, Action) -> bool, s: SubId, mark: nat,
                   before: State) returns (st: State)
    requires Reachable(env, from, ok, before) && forall x: State, a: Action :: a.Poll? && !a.l.BeginPoll? ==> ok(x, a)
    requires before.pollers == [Poller(Copying({s}, false), {s}, Some(map[]))] && before.subs.hwm == map[s := mark]
    ensures Reachable(env, from, ok, st) && At(st.store.checkpoint, s) == mark
    ensures st.record.completed == before.record.completed
    ensures s in before.record.floor ==> s in st.record.floor && st.record.floor[s] == before.record.floor[s]
  {
    var cp: Marks := map[];
    assert {s} - {s} == {} && cp[s := mark] == map[s := mark];
    assert Turn(env, before, before.pollers[0], CopyMark(s)) ==
        Some((Poller(Copying({}, true), {s}, Some(map[s := mark])), before));
    ReachableNext(env, from, ok, before, Poll(0, CopyMark(s)));
    st := Step(env, before, Poll(0, CopyMark(s))).value;
    ReachableNext(env, from, ok, st, Poll(0, EndPoll(true)));
    st := Step(env, st, Poll(0, EndPoll(true))).value;
  }

  lemma {:induction false} PrefixRuns(env: Env, from: State, actions: seq<Action>, n: nat)
    requires Run(env, from, actions).Some? && n <= |actions|
    ensures Run(env, from, actions[..n]).Some?
    decreases |actions|
  {
    if n == |actions| {
      assert actions[..n] == actions;
    } else {
      var front := actions[..|actions| - 1];
      PrefixRuns(env, from, front, n);
      assert front[..n] == actions[..n];
    }
  }

  lemma {:induction false} RunOn(env: Env, st: State, first: seq<Action>, rest: seq<Action>)
    requires Run(env, st, first).Some?
    ensures Run(env, st, first + rest) == Run(env, Run(env, st, first).value, rest)
    decreases |rest|
  {
    if rest == [] {
      assert first + rest == first;
    } else {
      var n := |rest| - 1;
      RunOn(env, st, first, rest[..n]);
      assert (first + rest)[..|first + rest| - 1] == first + rest[..n];
    }
  }
}
