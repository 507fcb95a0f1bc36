/** internal/events/evtprocessor.go and the opening of filters in internal/events/subscription.go, in their own
    imperative form: one subscription's mark and filter, tied to the steps of StreamModel that move them. */
module Subscriptions {
  import opened Options
  import opened Ledger
  import opened StreamModel

  type Uint64 = n: int | 0 <= n <= MAX_UINT64

  class EvtProcessor {
    const subId: SubId
    var blockHWM: Uint64

    constructor (subId: SubId)
      ensures this.subId == subId && blockHWM == 0
    {
      this.subId := subId;
      blockHWM := 0;
    }

    // The callback of an acknowledged batch: the mark moves as the stream's marks do. Beyond the last height
    // the increment wraps to zero and the mark stays.
    method BatchComplete(blockNumber: Uint64, ghost hwm: Marks)
      requires At(hwm, subId) == blockHWM
      modifies this
      ensures forall e: Event :: e.subId == subId && e.blockNumber == blockNumber ==>
                blockHWM == At(Raise(hwm, e), subId)
      ensures blockNumber == MAX_UINT64 ==> blockHWM == old(blockHWM)
    {
      var newHWM := (blockNumber + 1) % (MAX_UINT64 + 1);
      if newHWM > blockHWM {
        blockHWM := newHWM;
      }
    }

    method InitBlockHWM(height: Uint64)
      modifies this
      ensures blockHWM == height
    {
      blockHWM := height;
    }
  }

  class Subscription {
    const ep: EvtProcessor
    var from: FromBlock
    var filterStale: bool
    var deleting: bool
    var resetRequested: bool

    constructor (id: SubId, from: FromBlock)
      ensures fresh(ep) && ep.subId == id && ep.blockHWM == 0 && this.from == from
      ensures filterStale && !deleting && !resetRequested
    {
      ep := new EvtProcessor(id);
      this.from := from;
      filterStale, deleting, resetRequested := true, false, false;
    }

    // The subscription agrees with `subs`: its mark, and whether its filter is live.
    ghost predicate Agrees(subs: Subs)
      reads this, ep
    {
      At(subs.hwm, ep.subId) == ep.blockHWM && (filterStale <==> ep.subId !in subs.sessions)
    }

    // setInitialBlockHeight; `height` is the node's answer, or None when the query fails.
    method SetInitialBlockHeight(height: Option<Uint64>) returns (since: Option<nat>)
      modifies ep
      ensures from.Explicit? ==> since == Some(from.block) && unchanged(ep)
      ensures from.Unparsable? || (from.Newest? && height.None?) ==> since.None? && unchanged(ep)
      ensures from.Newest? && height.Some? ==> since == Some(height.value as nat) && ep.blockHWM == height.value
    {
      match from
      case Explicit(block) => since := Some(block);
      case Unparsable => since := None;
      case Newest =>
        if height.None? {
          return None;
        }
        ep.InitBlockHWM(height.value);
        since := Some(height.value);
    }

    // The poller acts on it in its next round.
    method RequestReset(from: FromBlock)
      modifies this
      ensures this.from == from && resetRequested && deleting == old(deleting) && filterStale == old(filterStale)
    {
      this.from, resetRequested := from, true;
    }

    method Unsubscribe(deleting: bool, ghost subs: Subs)
      requires Agrees(subs)
      modifies this
      ensures Agrees(Unregistered(subs, ep.subId))
      ensures this.deleting == deleting && !resetRequested && from == old(from)
    {
      this.deleting, resetRequested, filterStale := deleting, false, true;
    }

    // eventPoller, for one subscription: a reset drops filter and checkpoint, and a stale filter is opened at the
    // checkpoint's height, or where the subscription asks for. `subscribed` says whether the node takes it.
    method OpenFilter(checkpoint: map<SubId, Uint64>, height: Option<Uint64>, subscribed: bool, ghost env: Env,
                      ghost subs: Subs)
      returns (left: map<SubId, Uint64>, since: Option<nat>)
      requires Agrees(subs)
      modifies this, ep
      ensures left == if old(resetRequested) then checkpoint - {ep.subId} else checkpoint
      ensures from == old(from) && !resetRequested && deleting == (old(deleting) && !old(resetRequested))
      ensures var before := if old(resetRequested) then Unregistered(subs, ep.subId) else subs;
              var stored := if ep.subId in left then left[ep.subId] else 0;
              Agrees(if deleting then before
                     else Start(env, before, ep.subId, OpeningOf(from, stored, Height(height)), subscribed))
      ensures old(resetRequested) && from.Explicit? ==> ep.blockHWM == old(ep.blockHWM)
      // A stale filter is opened at the stored height, whatever the subscription asks for; else where it asks for.
      ensures old(filterStale || resetRequested) && !deleting ==>
                && (ep.subId in left && left[ep.subId] > 0 ==>
                      ep.blockHWM == left[ep.subId] && since == if subscribed then Some(left[ep.subId]) else None)
                && (ep.subId !in left || left[ep.subId] == 0 ==>
                      match from
                      case Explicit(b) =>
                        ep.blockHWM == old(ep.blockHWM) && since == if subscribed then Some(b) else None
                      case Unparsable => ep.blockHWM == old(ep.blockHWM) && since.None?
                      case Newest =>
                        if height.None? then ep.blockHWM == old(ep.blockHWM) && since.None?
                        else ep.blockHWM == height.value && since == if subscribed then Some(height.value) else None)
                && (filterStale <==> since.None?)
      ensures !old(filterStale || resetRequested) || deleting ==> since.None? && ep.blockHWM == old(ep.blockHWM)
    {
      left, since := checkpoint, None;
      if resetRequested {
        Unsubscribe(false, subs);
        left := left - {ep.subId};
      }
      if !filterStale || deleting {
        return;
      }
      if ep.subId !in left || left[ep.subId] == 0 {
        since := SetInitialBlockHeight(height);
      } else {
        ep.InitBlockHWM(left[ep.subId]);
        since := Some(left[ep.subId]);
      }
      if !subscribed {
        since := None;
      }
      if since.Some? {
        filterStale := false;
      }
    }
  }

  // Without the filter of `s`; its mark stays.
  function Unregistered(subs: Subs, s: SubId): Subs { subs.(sessions := subs.sessions - {s}) }

  function Height(height: Option<Uint64>): Option<nat> { if height.None? then None else Some(height.value) }
}
