/** internal/events/eventstream.go in its own imperative form: the goroutines' loop bodies as methods
    over the shared fields, each tied to the action of StreamModel it carries out. */
module EventStreams {
  import opened Options
  import opened Ledger
  import opened StreamModel
  import opened HighWater

  // One call of performActionWithRetry made by processBatch. Hollow: the stream was suspended before
  // the first attempt, so the call returns no error without having attempted anything.
  datatype Attempt = Succeeded | Failed | Hollow

  datatype Settlement = Settlement(attempts: nat, processed: bool, suspended: bool)

  // Where processBatch's loop ends; the stream is suspended when the script runs out unsettled.
  function Settle(script: seq<Attempt>, handling: ErrorHandling): Settlement {
    if script == [] then Settlement(0, false, true) else
      match script[0]
      case Succeeded => Settlement(1, true, false)
      case Hollow => Settlement(1, true, true)
      case Failed =>
        if handling.SkipOnError? then Settlement(1, true, false) else
          var rest := Settle(script[1..], handling);
          rest.(attempts := rest.attempts + 1)
  }

  // The first n attempts fail and are tried again.
  ghost predicate FailFirst(script: seq<Attempt>, handling: ErrorHandling, n: nat) {
    n <= |script| && forall i :: 0 <= i < n ==> script[i].Failed? && handling.BlockOnError?
  }

  // Attempt n, the first that is not tried again, delivers the batch or skips it.
  ghost predicate Delivers(script: seq<Attempt>, handling: ErrorHandling, n: nat) {
    && n < |script| && FailFirst(script, handling, n)
    && (script[n].Succeeded? || (script[n].Failed? && handling.SkipOnError?))
  }

  // It is not even made, because the stream was suspended.
  ghost predicate PassesHollow(script: seq<Attempt>, handling: ErrorHandling, n: nat) {
    n < |script| && FailFirst(script, handling, n) && script[n].Hollow?
  }

  // The first attempt that is not tried again settles the batch: a success, or a failure under "skip", leaves the
  // stream running; only when there is none is the batch given up.
  lemma {:induction false} SettleMeans(script: seq<Attempt>, handling: ErrorHandling, n: nat)
    requires FailFirst(script, handling, n)
    ensures var r := Settle(script, handling);
            if n == |script| then r.attempts == n && !r.processed && r.suspended
            else !FailFirst(script, handling, n + 1) ==>
                   r.attempts == n + 1 && r.processed && (r.suspended <==> script[n].Hollow?)
  {
    if n == 0 {
    } else {
      assert forall i :: 1 <= i < |script| ==> script[i] == script[1..][i - 1];
      assert FailFirst(script[1..], handling, n - 1);
      assert FailFirst(script[1..], handling, n) ==> FailFirst(script, handling, n + 1);
      SettleMeans(script[1..], handling, n - 1);
    }
  }

  lemma SettledBy(script: seq<Attempt>, handling: ErrorHandling)
    ensures forall n: nat :: Delivers(script, handling, n) ==>
              Settle(script, handling) == Settlement(n + 1, true, false)
    ensures forall n: nat :: PassesHollow(script, handling, n) ==>
              Settle(script, handling) == Settlement(n + 1, true, true)
    ensures FailFirst(script, handling, |script|) ==> Settle(script, handling) == Settlement(|script|, false, true)
  {
    forall n: nat | Delivers(script, handling, n) ensures Settle(script, handling) == Settlement(n + 1, true, false) {
      assert !FailFirst(script, handling, n + 1);
      SettleMeans(script, handling, n);
    }
    forall n: nat | PassesHollow(script, handling, n)
      ensures Settle(script, handling) == Settlement(n + 1, true, true)
    {
      assert !FailFirst(script, handling, n + 1);
      SettleMeans(script, handling, n);
    }
    if FailFirst(script, handling, |script|) { SettleMeans(script, handling, |script|); }
  }

  class EventStream {
    const batchSize: BatchSize
    const errorHandling: ErrorHandling
    var suspended: bool
    var stopped: bool
    var processorDone: bool
    var pollerDone: bool
    var dispatching: bool
    var inFlight: nat
    var batchQueue: seq<seq<Event>>
    var batchCount: nat
    var currentBatch: seq<Event>
    var blockHWM: Marks

    ghost function View(): Stream
      reads this
    {
      Stream(suspended, stopped, processorDone, pollerDone, dispatching, inFlight, batchQueue, batchCount, currentBatch)
    }

    constructor (batchSize: nat, errorHandling: ErrorHandling)
      ensures View() == Started(false) && blockHWM == map[]
      ensures this.batchSize ==
              if batchSize == 0 then 1 else if batchSize > MAX_BATCH_SIZE then MAX_BATCH_SIZE else batchSize
      ensures this.errorHandling == errorHandling
    {
      this.batchSize := if batchSize == 0 then 1 else if batchSize > MAX_BATCH_SIZE then MAX_BATCH_SIZE else batchSize;
      this.errorHandling := errorHandling;
      suspended, stopped, processorDone, pollerDone, dispatching := false, false, false, false, true;
      inFlight, batchQueue, batchCount, currentBatch := 0, [], 0, [];
      blockHWM := map[];
    }

    // batchDispatcher, on an event from the channel
    method Receive(event: Event)
      modifies this`inFlight, this`batchQueue, this`currentBatch
      ensures View() == old(View()).Receive(batchSize, event)
      // A batch leaves as soon as it is full.
      ensures inFlight == old(inFlight) + 1
      ensures |old(currentBatch)| + 1 == batchSize ==>
                batchQueue == old(batchQueue) + [old(currentBatch) + [event]] && currentBatch == []
      ensures |old(currentBatch)| + 1 != batchSize ==>
                batchQueue == old(batchQueue) && currentBatch == old(currentBatch) + [event]
    {
      currentBatch := currentBatch + [event];
      if |currentBatch| == batchSize {
        inFlight := inFlight + 1;
        batchQueue := batchQueue + [currentBatch];
        currentBatch := [];
      } else {
        inFlight := inFlight + 1;
      }
    }

    // batchDispatcher, when the current batch has waited long enough
    method Timeout()
      requires currentBatch != []
      modifies this`batchQueue, this`currentBatch
      ensures View() == old(View()).Timeout()
      ensures batchQueue == old(batchQueue) + [old(currentBatch)] && currentBatch == []
    {
      batchQueue := batchQueue + [currentBatch];
      currentBatch := [];
    }

    // batchProcessor, taking the next batch off the queue or none when it must leave
    method TakeBatch() returns (batch: Option<seq<Event>>)
      modifies this`batchQueue, this`batchCount
      ensures batch.Some? <==> !suspended && !stopped && old(batchQueue) != []
      ensures batch.Some? ==> batch.value == old(batchQueue)[0] && View() == old(View()).Take()
      ensures batch.Some? ==> old(batchQueue) == [batch.value] + batchQueue && batchCount == old(batchCount) + 1
      ensures batch.None? ==> View() == old(View())
    {
      if suspended || stopped || batchQueue == [] {
        return None;
      }
      batch := Some(batchQueue[0]);
      batchCount := batchCount + 1;
      batchQueue := batchQueue[1..];
    }

    method IsBlocked() returns (blocked: bool)
      ensures blocked == View().IsBlocked(batchSize) == (inFlight >= batchSize)
    {
      blocked := inFlight >= batchSize;
    }

    method Suspend()
      modifies this`suspended
      ensures View() == old(View()).(suspended := true)
    {
      suspended := true;
    }

    method Resume() returns (ok: bool)
      modifies this`suspended, this`processorDone, this`pollerDone
      ensures View() == old(View()).Resumed()
      ensures ok ==> !suspended && !processorDone && !pollerDone
      ensures ok == (old(processorDone) && old(pollerDone))
      ensures !ok ==> View() == old(View())
    {
      if !processorDone || !pollerDone {
        return false;
      }
      suspended := false;
      processorDone := false;
      pollerDone := false;
      ok := true;
    }

    method Stop()
      modifies this`stopped
      ensures View() == old(View()).(stopped := true)
    {
      stopped := true;
    }

    // processBatch's loop
    method TryBatch(script: seq<Attempt>) returns (attempts: nat, processed: bool)
      requires !suspended && !stopped
      modifies this`suspended
      ensures Settle(script, errorHandling) == Settlement(attempts, processed, suspended)
      ensures forall n: nat :: Delivers(script, errorHandling, n) ==> attempts == n + 1 && processed && !suspended
      ensures forall n: nat :: PassesHollow(script, errorHandling, n) ==> attempts == n + 1 && processed && suspended
      ensures FailFirst(script, errorHandling, |script|) ==> attempts == |script| && !processed && suspended
    {
      SettledBy(script, errorHandling);
      processed, attempts := false, 0;
      while !suspended && !stopped && !processed
        invariant attempts <= |script| && !stopped
        invariant var r := Settle(script, errorHandling);
                  if suspended || processed then r == Settlement(attempts, processed, suspended)
                  else
                    var rest := Settle(script[attempts..], errorHandling);
                    r == rest.(attempts := rest.attempts + attempts)
        decreases |script| - attempts, !suspended && !processed
      {
        if attempts == |script| {
          suspended := true;
        } else {
          assert script[attempts..][1..] == script[attempts + 1..];
          var attempt := script[attempts];
          attempts := attempts + 1;
          suspended := attempt.Hollow?;
          processed := !attempt.Failed?;
          if !processed {
            processed := errorHandling.SkipOnError?;
          }
        }
      }
    }

    // processBatch; `suspendLate` says the stream is suspended once the batch is settled, before the callbacks.
    method ProcessBatch(events: seq<Event>, script: seq<Attempt>, suspendLate: bool) returns (attempts: nat)
      modifies this`suspended, this`inFlight, this`blockHWM
      ensures events == [] ==> unchanged(this) && attempts == 0
      ensures events != [] ==>
                var r :=
                  if old(suspended || stopped) then Settlement(0, false, old(suspended))
                  else Settle(script, errorHandling);
                && attempts == r.attempts
                && View() == (if r.processed then old(View()).CountOff(|events|) else old(View()))
                             .(suspended := r.suspended || suspendLate)
                && (View().SuspendOrStop() ==> blockHWM == old(blockHWM))
                && (!View().SuspendOrStop() && LastIsHighest(events) ==>
                      forall s :: At(blockHWM, s) == At(RaiseEach(old(blockHWM), events), s))
      // A batch that is delivered, or skipped, is acknowledged and leaves the stream running.
      ensures events != [] && LastIsHighest(events) && !old(suspended || stopped) && !suspendLate ==>
                forall n: nat :: Delivers(script, errorHandling, n) ==>
                  && attempts == n + 1 && !suspended && !stopped
                  && (|events| <= old(inFlight) ==> inFlight == old(inFlight) - |events|)
                  && forall e :: e in events ==> At(blockHWM, e.subId) > e.blockNumber
      // A batch that was not even attempted is counted off like a delivered one, but not acknowledged.
      ensures events != [] && !old(suspended || stopped) ==>
                forall n: nat :: PassesHollow(script, errorHandling, n) ==>
                  && attempts == n + 1 && suspended && blockHWM == old(blockHWM)
                  && (|events| <= old(inFlight) ==> inFlight == old(inFlight) - |events|)
      // A batch that is given up is neither.
      ensures events != [] && !old(suspended || stopped) && FailFirst(script, errorHandling, |script|) ==>
                attempts == |script| && suspended && inFlight == old(inFlight) && blockHWM == old(blockHWM)
    {
      attempts := 0;
      if events == [] {
        return;
      }
      var processed := false;
      if !suspended && !stopped {
        attempts, processed := TryBatch(script);
      }
      if processed {
        inFlight := if |events| <= inFlight then inFlight - |events| else (inFlight - |events|) % (MAX_UINT64 + 1);
      }
      suspended := suspended || suspendLate;
      if suspended || stopped {
        return;
      }
      var cbs := CallbacksFor(events);
      ghost var before := blockHWM;
      CallBack(cbs, events);
      forall e | e in events && LastIsHighest(events) ensures At(blockHWM, e.subId) > e.blockNumber {
        RaiseEachAt(before, events, e.subId);
      }
    }

    // Go's map iteration: any callback still to make may come next.
    method CallEach(cbs: map<SubId, Event>)
      requires forall s :: s in cbs ==> cbs[s].subId == s
      modifies this`blockHWM
      ensures forall s :: At(blockHWM, s) ==
                          if s in cbs && At(old(blockHWM), s) <= cbs[s].blockNumber then cbs[s].blockNumber + 1
                          else At(old(blockHWM), s)
    {
      var todo := cbs;
      while todo != map[]
        invariant forall s :: s in todo ==> s in cbs && todo[s] == cbs[s]
        invariant forall s :: At(blockHWM, s) ==
                    if s in cbs && s !in todo then At(Raise(old(blockHWM), cbs[s]), s) else At(old(blockHWM), s)
        decreases |todo|
      {
        var s :| s in todo;
        blockHWM := Raise(blockHWM, todo[s]);
        assert (todo - {s}).Keys == todo.Keys - {s};
        todo := todo - {s};
      }
    }

    method CallBack(cbs: map<SubId, Event>, ghost events: seq<Event>)
      requires cbs == LastPerSub(events)
      modifies this`blockHWM
      ensures LastIsHighest(events) ==> forall s :: At(blockHWM, s) == At(RaiseEach(old(blockHWM), events), s)
      ensures forall s :: At(blockHWM, s) ==
                          if s in cbs && At(old(blockHWM), s) <= cbs[s].blockNumber then cbs[s].blockNumber + 1
                          else At(old(blockHWM), s)
    {
      LastKeepsSub(events);
      CallEach(cbs);
      if LastIsHighest(events) {
        forall s ensures At(blockHWM, s) == At(RaiseEach(old(blockHWM), events), s) {
          LastReachesHighest(old(blockHWM), events, s);
        }
      }
    }

    // eventPoller, recording the marks of the subscriptions it saw
    method RecordMarks(checkpoint: Marks, subs: seq<SubId>) returns (updated: Marks, changed: bool)
      ensures forall s :: At(updated, s) == if s in subs then At(blockHWM, s) else At(checkpoint, s)
      ensures !changed ==> forall s :: s in subs ==> At(checkpoint, s) == At(blockHWM, s) > 0
      ensures (forall i, j :: 0 <= i < j < |subs| ==> subs[i] != subs[j]) ==>
                (changed <==> exists s :: s in subs && (At(checkpoint, s) == 0 || At(checkpoint, s) != At(blockHWM, s)))
    {
      updated, changed := checkpoint, false;
      for k := 0 to |subs|
        invariant forall s :: At(updated, s) == if s in subs[..k] then At(blockHWM, s) else At(checkpoint, s)
        invariant !changed ==> forall s :: s in subs[..k] ==> At(checkpoint, s) == At(blockHWM, s) > 0
        invariant (forall i, j :: 0 <= i < j < |subs| ==> subs[i] != subs[j]) ==>
                    (changed ==>
                        exists s :: s in subs && (At(checkpoint, s) == 0 || At(checkpoint, s) != At(blockHWM, s)))
      {
        var i1, i2 := At(updated, subs[k]), At(blockHWM, subs[k]);
        changed := changed || i1 == 0 || i1 != i2;
        updated := updated[subs[k] := i2];
        assert forall s :: s in subs[..k + 1] <==> s in subs[..k] || s == subs[k];
      }
      assert subs[..|subs|] == subs;
    }
  }
}
