/** performActionWithRetry in internal/events/eventstream.go: attempts with doubling delays, until one
    succeeds, time is up, or the stream is suspended, stopped or updated. */
module Retry {
  import opened EventStreams

  // What the i-th round of the loop meets: whether the stream is suspended when it starts, whether an
  // update interrupts the wait before the attempt, and how the attempt goes.
  datatype Round = Round(suspended: bool, interrupted: bool, ok: bool, took: nat)

  // The delay after k doublings.
  function Doubled(delay: nat, k: nat): nat { if k == 0 then delay else 2 * Doubled(delay, k - 1) }

  // What n attempts take, with the waits between them, each twice as long as the one before.
  function Spent(delay: nat, world: nat -> Round, n: nat): nat {
    if n == 0 then 0 else
      Spent(delay, world, n - 1) + (if n == 1 then 0 else Doubled(delay, n - 2)) + world(n - 1).took
  }

  // `elapsed` counts from the start in the unit of the delays.
  method PerformActionWithRetry(initialDelay: nat, retryTimeout: nat, world: nat -> Round)
    returns (result: Attempt, attempts: nat, elapsed: nat)
    requires initialDelay > 0
    ensures result.Hollow? <==> world(0).suspended
    ensures result.Hollow? <==> attempts == 0
    ensures result.Succeeded? <==> attempts > 0 && world(attempts - 1).ok
    ensures forall i :: 0 <= i < attempts - 1 ==> !world(i).ok
    ensures result.Failed? ==> elapsed > retryTimeout || world(attempts).suspended || world(attempts).interrupted
    ensures elapsed == Spent(initialDelay, world, attempts)
    ensures attempts >= 2 ==> Spent(initialDelay, world, attempts - 1) <= retryTimeout
    ensures attempts >= 2 ==> Doubled(initialDelay, attempts - 2) - initialDelay <= retryTimeout
  {
    attempts, elapsed, result := 0, 0, Hollow;
    var delay, complete := initialDelay, false;
    while !world(attempts).suspended && !complete
      invariant complete ==> attempts > 0
      invariant result.Hollow? <==> attempts == 0
      invariant attempts > 0 ==> !world(0).suspended && (result.Succeeded? <==> world(attempts - 1).ok)
      invariant attempts == 0 ==> elapsed == 0
      invariant forall i :: 0 <= i < attempts - 1 ==> !world(i).ok
      invariant complete <==> result.Succeeded? || (attempts > 0 && elapsed > retryTimeout)
      invariant delay == Doubled(initialDelay, if attempts == 0 then 0 else attempts - 1) && delay > 0
      invariant attempts > 0 ==> delay - initialDelay <= elapsed
      invariant elapsed == Spent(initialDelay, world, attempts)
      invariant attempts >= 2 ==> Spent(initialDelay, world, attempts - 1) <= retryTimeout
      invariant attempts >= 2 ==> Doubled(initialDelay, attempts - 2) - initialDelay <= retryTimeout
      decreases if complete then 0 else retryTimeout + 2 - elapsed + (if attempts == 0 then 1 else 0)
    {
      if attempts > 0 {
        if world(attempts).interrupted {
          return;
        }
        elapsed := elapsed + delay;
        delay := delay * 2;
      }
      var r := world(attempts);
      attempts := attempts + 1;
      elapsed := elapsed + r.took;
      result := if r.ok then Succeeded else Failed;
      complete := r.ok || elapsed > retryTimeout;
    }
  }
}
