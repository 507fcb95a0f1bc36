/** internal/rest/receipt/receiptstore.go: writing a receipt until it sticks or time runs out. */
module ReceiptWriter {
  import opened Options
  import opened Lex
  import opened KVStores
  import opened ReceiptLog
  import opened ReceiptQuery
  import opened LevelDBReceiptStore

  // What one AddReceipt call meets: the key generated for it, how many writes go through, and how
  // long it takes.
  datatype Weather = Weather(key: string, writes: nat, took: nat)

  function PutsMade(r: Receipt, writes: nat): nat {
    if writes < PutsNeeded(r) then writes else PutsNeeded(r)
  }

  // What the first n attempts add to the log.
  function Attempts(requestID: string, receipt: Receipt, world: nat -> Weather, n: nat): seq<Entry> {
    if n == 0 then [] else
      Attempts(requestID, receipt, world, n - 1)
      + [Entry(world(n - 1).key, requestID, receipt, PutsMade(receipt, world(n - 1).writes))]
  }

  lemma AttemptsNext(requestID: string, receipt: Receipt, world: nat -> Weather, n: nat, start: seq<Entry>,
                     before: seq<Entry>, after: seq<Entry>)
    requires before == start + Attempts(requestID, receipt, world, n)
    requires after == before + [Entry(world(n).key, requestID, receipt, PutsMade(receipt, world(n).writes))]
    ensures after == start + Attempts(requestID, receipt, world, n + 1)
  {
  }

  ghost predicate Completed(log: seq<Entry>, id: string) {
    exists i :: 0 <= i < |log| && log[i].InId() && log[i].requestId == id
  }

  // The caller is told of success exactly when a receipt of that request is complete.
  ghost predicate ToldExactly(log: seq<Entry>, id: string, stored: bool) {
    LogOk(log) && RequestIdOk(id) ==> (stored <==> Completed(log, id))
  }

  // After none of the attempts before the n-th was a receipt of that request complete.
  ghost predicate NotBefore(start: seq<Entry>, id: string, r: Receipt, world: nat -> Weather, n: nat) {
    forall m :: 0 < m < n ==> ToldExactly(start + Attempts(id, r, world, m), id, false)
  }

  // The log after n attempts, of which at most the last completed a receipt of that request.
  ghost predicate Tried(start: seq<Entry>, log: seq<Entry>, id: string, r: Receipt, world: nat -> Weather, n: nat,
                        stored: bool)
  {
    log == start + Attempts(id, r, world, n) && NotBefore(start, id, r, world, if stored then n else n + 1)
  }

  lemma NoneTried(log: seq<Entry>, id: string, r: Receipt, world: nat -> Weather)
    ensures Tried(log, log, id, r, world, 0, false)
  {
  }

  // One attempt more.
  lemma Attempted(start: seq<Entry>, id: string, r: Receipt, world: nat -> Weather, n: nat, before: seq<Entry>,
                  log: seq<Entry>, stored: bool)
    requires Tried(start, before, id, r, world, n, false) && ToldExactly(log, id, stored)
    requires log == before + [Entry(world(n).key, id, r, PutsMade(r, world(n).writes))]
    ensures Tried(start, log, id, r, world, n + 1, stored)
  {
    AttemptsNext(id, r, world, n, start, before, log);
  }

  // The backoff factor 1.1, on whole nanoseconds; floating point may come out one above.
  ghost predicate TenthMore(grow: nat -> nat) { forall d: nat :: d * 11 / 10 <= Grown(grow, d) <= d * 11 / 10 + 1 }

  function Grown(grow: nat -> nat, d: nat): nat { grow(d) }

  // The k-th wait, and the first n of them together.
  function Delay(grow: nat -> nat, initial: nat, k: nat): nat {
    if k == 0 then initial else Grown(grow, Delay(grow, initial, k - 1))
  }

  function Waits(grow: nat -> nat, initial: nat, n: nat): nat {
    if n == 0 then 0 else Waits(grow, initial, n - 1) + Delay(grow, initial, n - 1)
  }

  // How long the first n attempts take by themselves.
  function Took(world: nat -> Weather, n: nat): nat { if n == 0 then 0 else Took(world, n - 1) + world(n - 1).took }

  // The time gone by is that of the attempts and of the waits between them; before the last it was within the timeout.
  ghost predicate Within(grow: nat -> nat, initial: nat, world: nat -> Weather, attempts: nat, elapsed: nat,
                         timeout: nat)
  {
    && attempts >= 1 && elapsed == Waits(grow, initial, attempts - 1) + Took(world, attempts)
    && (attempts >= 2 ==> Waits(grow, initial, attempts - 2) + Took(world, attempts - 1) <= timeout)
  }

  // After that many attempts: what the next wait is, and the time gone by.
  ghost predicate Paced(grow: nat -> nat, initial: nat, world: nat -> Weather, attempts: nat, delay: nat, elapsed: nat)
  {
    var k := if attempts == 0 then 0 else attempts - 1;
    delay == Delay(grow, initial, k) && elapsed == Waits(grow, initial, k) + Took(world, attempts)
  }

  lemma {:induction false} DelayGrows(grow: nat -> nat, initial: nat, k: nat)
    requires TenthMore(grow)
    ensures initial <= Delay(grow, initial, k)
  {
    if k == 0 {
    } else {
      DelayGrows(grow, initial, k - 1);
    }
  }

  lemma {:induction false} WaitsGrow(grow: nat -> nat, initial: nat, n: nat)
    requires TenthMore(grow)
    ensures n * initial <= Waits(grow, initial, n)
  {
    if n == 0 {
    } else {
      WaitsGrow(grow, initial, n - 1);
      assert n * initial == (n - 1) * initial + initial;
      DelayGrows(grow, initial, n - 1);
    }
  }

  // So the number of attempts is bounded.
  lemma AttemptsBounded(grow: nat -> nat, initial: nat, world: nat -> Weather, attempts: nat, elapsed: nat,
                        timeout: nat)
    requires TenthMore(grow) && Within(grow, initial, world, attempts, elapsed, timeout)
    ensures attempts >= 2 ==> (attempts - 2) * initial <= timeout
  {
    if attempts >= 2 { WaitsGrow(grow, initial, attempts - 2); }
  }

  // The wait before the next attempt, and the attempt itself.
  lemma PacedNext(grow: nat -> nat, initial: nat, world: nat -> Weather, attempts: nat, delay: nat, elapsed: nat,
                  timeout: nat)
    requires TenthMore(grow) && Paced(grow, initial, world, attempts, delay, elapsed) && elapsed <= timeout
    ensures initial <= delay
    ensures var (now, next) := if attempts > 0 then (elapsed + delay, Grown(grow, delay)) else (elapsed, delay);
            && Paced(grow, initial, world, attempts + 1, next, now + world(attempts).took)
            && Within(grow, initial, world, attempts + 1, now + world(attempts).took, timeout)
  {
    if attempts > 0 { DelayGrows(grow, initial, attempts - 1); }
  }

  // One attempt: a receipt found afterwards counts as stored, whoever wrote it.
  method TryOnce(db: LevelDBReceipts, requestID: string, receipt: Receipt, w: Weather) returns (stored: bool)
    requires db.Valid()
    modifies db, db.store
    ensures db.Valid()
    ensures db.log == old(db.log) + [Entry(w.key, requestID, receipt, PutsMade(receipt, w.writes))]
    ensures ToldExactly(db.log, requestID, stored)
  {
    ghost var before := db.log;
    var err := db.AddReceipt(requestID, receipt, w.key, w.writes);
    assert before + [db.log[|before|]] == db.log;
    if !err {
      assert db.log[|before|].InId();
      return true;
    }
    var existing, failed := db.GetReceipt(requestID);
    stored := !failed && existing.Some?;
  }

  // One round of the loop: the wait, except before the first attempt, and the attempt.
  method Round(db: LevelDBReceipts, requestID: string, receipt: Receipt, world: nat -> Weather, grow: nat -> nat,
               attempts: nat, delay: nat, elapsed: nat, ghost initial: nat, ghost timeout: nat, ghost start: seq<Entry>)
    returns (stored: bool, nextDelay: nat, now: nat)
    requires db.Valid() && Tried(start, db.log, requestID, receipt, world, attempts, false) && TenthMore(grow)
    requires Paced(grow, initial, world, attempts, delay, elapsed) && elapsed <= timeout
    modifies db, db.store
    ensures db.Valid() && Tried(start, db.log, requestID, receipt, world, attempts + 1, stored)
    ensures ToldExactly(db.log, requestID, stored)
    ensures Paced(grow, initial, world, attempts + 1, nextDelay, now)
    ensures Within(grow, initial, world, attempts + 1, now, timeout)
    ensures now >= elapsed + if attempts > 0 then initial else 0
  {
    PacedNext(grow, initial, world, attempts, delay, elapsed, timeout);
    nextDelay, now := delay, elapsed;
    if attempts > 0 {
      now := now + delay;
      nextDelay := Grown(grow, delay);
    }
    now := now + world(attempts).took;
    ghost var before := db.log;
    stored := TryOnce(db, requestID, receipt, world(attempts));
    Attempted(start, requestID, receipt, world, attempts, before, db.log, stored);
  }

  // Go's panic is the outcome `!stored`.
  method WriteReceipt(db: LevelDBReceipts, requestID: string, receipt: Receipt, world: nat -> Weather, grow: nat -> nat,
                      initialDelay: nat, retryTimeout: nat)
    returns (stored: bool, attempts: nat, elapsed: nat)
    requires db.Valid() && initialDelay > 0 && TenthMore(grow)
    modifies db, db.store
    // It stops at the first attempt after which a receipt of that request is complete.
    ensures db.Valid() && Tried(old(db.log), db.log, requestID, receipt, world, attempts, stored)
    ensures ToldExactly(db.log, requestID, stored)
    ensures !stored ==> elapsed > retryTimeout
    ensures Within(grow, initialDelay, world, attempts, elapsed, retryTimeout)
  {
    var delay := initialDelay;
    attempts, elapsed, stored := 0, 0, false;
    NoneTried(db.log, requestID, receipt, world);
    while true
      invariant db.Valid() && Tried(old(db.log), db.log, requestID, receipt, world, attempts, false) && !stored
      invariant Paced(grow, initialDelay, world, attempts, delay, elapsed) && elapsed <= retryTimeout
      decreases retryTimeout - elapsed, if attempts == 0 then 1 else 0
    {
      stored, delay, elapsed := Round(db, requestID, receipt, world, grow, attempts, delay, elapsed, initialDelay,
          retryTimeout, old(db.log));
      attempts := attempts + 1;
      if stored || elapsed > retryTimeout {
        break;
      }
    }
  }

  // How many of the first n attempts got as far as their first write.
  function Begun(world: nat -> Weather, n: nat): nat {
    if n == 0 then 0 else Begun(world, n - 1) + if world(n - 1).writes > 0 then 1 else 0
  }

  // Every attempt that got that far leaves a record of its own: a retried receipt is listed again.
  lemma {:induction false} RetriesAreListed(log: seq<Entry>, id: string, r: Receipt, world: nat -> Weather, n: nat)
    ensures |KeysOf(log + Attempts(id, r, world, n), Recorded())| == |KeysOf(log, Recorded())| + Begun(world, n)
  {
    if n == 0 {
      assert log + [] == log;
    } else {
      RetriesAreListed(log, id, r, world, n - 1);
      var all := log + Attempts(id, r, world, n);
      assert all[..|all| - 1] == log + Attempts(id, r, world, n - 1);
    }
  }
}
