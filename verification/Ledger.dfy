/** Events, the ledger that produces them, and the per-subscription high-water marks. */
module Ledger {
  const MAX_UINT64: int := 0xFFFF_FFFF_FFFF_FFFF

  // A block number is a uint64 that leaves room for the height following it.
  type BlockNumber = b: int | 0 <= b < MAX_UINT64

  type SubId = string

  // `position` is the event's place in everything its subscription will ever select.
  datatype Event = Event(subId: SubId, blockNumber: BlockNumber, position: nat)

  // What each subscription's filter selects from its channel, in delivery order.
  type Source = map<SubId, seq<Event>>

  ghost predicate BlockOrdered(src: Source) {
    && (forall s, i :: s in src && 0 <= i < |src[s]| ==> src[s][i].subId == s && src[s][i].position == i)
    && (forall s, i, j :: s in src && 0 <= i <= j < |src[s]| ==> src[s][i].blockNumber <= src[s][j].blockNumber)
  }

  // Every later event of the same subscription lies in a later block.
  ghost predicate EndsBlock(src: Source, e: Event) {
    e.subId in src ==>
      forall j :: e.position < j < |src[e.subId]| ==> e.blockNumber < src[e.subId][j].blockNumber
  }

  // The ledger never gives one subscription two events of the same block.
  ghost predicate OneEventPerBlock(src: Source) {
    forall s, i, j :: s in src && 0 <= i < j < |src[s]| ==> src[s][i].blockNumber < src[s][j].blockNumber
  }

  // Where a subscription opened at block `since` starts.
  function FirstFrom(events: seq<Event>, since: nat): (i: nat)
    ensures i <= |events|
    ensures forall j :: 0 <= j < i ==> events[j].blockNumber < since
    ensures i < |events| ==> since <= events[i].blockNumber
  {
    if events == [] || since <= events[0].blockNumber then 0 else
      var i := FirstFrom(events[1..], since);
      assert forall j :: 0 < j < 1 + i ==> events[j] == events[1..][j - 1];
      1 + i
  }

  // Block heights by subscription: high-water marks and checkpoints. An absent entry reads as zero.
  type Marks = map<SubId, nat>

  function At(m: Marks, s: SubId): nat {
    if s in m then m[s] else 0
  }

  // batchComplete: one callback raises one mark to the height after its event's block, never lowers it.
  function Raise(m: Marks, e: Event): Marks {
    if e.blockNumber + 1 > At(m, e.subId) then m[e.subId := e.blockNumber + 1] else m
  }

  function RaiseEach(m: Marks, events: seq<Event>): Marks {
    if events == [] then m else Raise(RaiseEach(m, events[..|events| - 1]), events[|events| - 1])
  }

  // The callbacks kept for a batch: for each subscription, its last event.
  function LastPerSub(events: seq<Event>): map<SubId, Event> {
    if events == [] then map[] else
      var e := events[|events| - 1];
      LastPerSub(events[..|events| - 1])[e.subId := e]
  }
}

/** The acknowledgement loop of processBatch, in internal/events/eventstream.go. */
module HighWater {
  import opened Ledger

  lemma {:induction false} LastPerSubIsLast(events: seq<Event>, s: SubId)
    ensures s in LastPerSub(events) <==> exists k :: 0 <= k < |events| && events[k].subId == s
    ensures s in LastPerSub(events) ==>
              exists k :: 0 <= k < |events| && LastPerSub(events)[s] == events[k] && events[k].subId == s
                          && forall j :: k < j < |events| ==> events[j].subId != s
  {
    if events == [] {
    } else {
      var n := |events| - 1;
      LastPerSubIsLast(events[..n], s);
      assert events[n].subId == s || s in LastPerSub(events[..n]) <==> s in LastPerSub(events);
      if events[n].subId != s && s in LastPerSub(events) {
        var k :| 0 <= k < n && LastPerSub(events[..n])[s] == events[..n][k] && events[..n][k].subId == s
                 && forall j :: k < j < n ==> events[..n][j].subId != s;
        assert forall j :: k < j < n ==> events[j] == events[..n][j];
        assert LastPerSub(events)[s] == events[k];
      } else if s !in LastPerSub(events) {
        assert forall j :: 0 <= j < n ==> events[j] == events[..n][j];
      }
    }
  }

  // The map processBatch builds while walking the batch.
  method CallbacksFor(events: seq<Event>) returns (cbs: map<SubId, Event>)
    ensures cbs == LastPerSub(events)
    ensures forall s :: s in cbs ==> cbs[s] in events && cbs[s].subId == s
  {
    cbs := map[];
    for i := 0 to |events|
      invariant cbs == LastPerSub(events[..i])
      invariant forall s :: s in cbs ==> cbs[s] in events && cbs[s].subId == s
    {
      assert events[..i + 1][..i] == events[..i];
      cbs := cbs[events[i].subId := events[i]];
    }
    assert events[..|events|] == events;
  }

  // Calling the callbacks back in the order Go's map iteration happens to give.
  function RaiseInOrder(m: Marks, cbs: map<SubId, Event>, order: seq<SubId>): Marks
    requires forall s :: s in order ==> s in cbs
    decreases |order|
  {
    if order == [] then m else RaiseInOrder(Raise(m, cbs[order[0]]), cbs, order[1..])
  }

  ghost predicate Enumerates(order: seq<SubId>, cbs: map<SubId, Event>) {
    && (forall s :: s in order <==> s in cbs)
    && (forall i, j :: 0 <= i < j < |order| ==> order[i] != order[j])
  }

  lemma {:induction false} RaiseInOrderAt(m: Marks, cbs: map<SubId, Event>, order: seq<SubId>, s: SubId)
    requires forall t :: t in order ==> t in cbs && cbs[t].subId == t
    requires forall i, j :: 0 <= i < j < |order| ==> order[i] != order[j]
    ensures At(RaiseInOrder(m, cbs, order), s) == if s in order then At(Raise(m, cbs[s]), s) else At(m, s)
    decreases |order|
  {
    if order == [] {
    } else {
      RaiseInOrderAt(Raise(m, cbs[order[0]]), cbs, order[1..], s);
      assert s in order <==> s == order[0] || s in order[1..];
    }
  }

  lemma {:induction false} RaiseEachAt(m: Marks, events: seq<Event>, s: SubId)
    ensures At(RaiseEach(m, events), s) >= At(m, s)
    ensures forall k :: 0 <= k < |events| && events[k].subId == s ==>
              At(RaiseEach(m, events), s) > events[k].blockNumber
    ensures At(RaiseEach(m, events), s) == At(m, s)
            || exists k :: 0 <= k < |events| && events[k].subId == s
                           && At(RaiseEach(m, events), s) == events[k].blockNumber + 1
  {
    if events == [] {
    } else {
      var n := |events| - 1;
      RaiseEachAt(m, events[..n], s);
      assert forall k :: 0 <= k < n ==> events[k] == events[..n][k];
    }
  }

  // The shortcut is sound exactly when no subscription's last event in the batch is beaten by an earlier one.
  ghost predicate LastIsHighest(events: seq<Event>) {
    forall k :: 0 <= k < |events| ==>
      events[k].subId in LastPerSub(events)
      && events[k].blockNumber <= LastPerSub(events)[events[k].subId].blockNumber
  }

  lemma LastKeepsSub(events: seq<Event>)
    ensures forall s :: s in LastPerSub(events) ==> LastPerSub(events)[s].subId == s && LastPerSub(events)[s] in events
  {
    forall s | s in LastPerSub(events) ensures LastPerSub(events)[s].subId == s && LastPerSub(events)[s] in events {
      LastPerSubIsLast(events, s);
    }
  }

  lemma LastReachesHighest(m: Marks, events: seq<Event>, s: SubId)
    requires LastIsHighest(events)
    ensures var last := LastPerSub(events);
            At(RaiseEach(m, events), s) == if s in last then At(Raise(m, last[s]), s) else At(m, s)
  {
    LastKeepsSub(events);
    RaiseEachAt(m, events, s);
    LastPerSubIsLast(events, s);
  }

  // One callback per subscription, in any map order, leaves the marks that one callback per event would.
  lemma AckShortcut(m: Marks, events: seq<Event>, order: seq<SubId>, s: SubId)
    requires Enumerates(order, LastPerSub(events))
    requires LastIsHighest(events)
    ensures At(RaiseInOrder(m, LastPerSub(events), order), s) == At(RaiseEach(m, events), s)
  {
    LastKeepsSub(events);
    RaiseInOrderAt(m, LastPerSub(events), order, s);
    LastReachesHighest(m, events, s);
  }

  lemma AckShortcutExact(events: seq<Event>, order: seq<SubId>)
    requires Enumerates(order, LastPerSub(events))
    ensures LastIsHighest(events) <==>
              forall m: Marks, s :: At(RaiseInOrder(m, LastPerSub(events), order), s) == At(RaiseEach(m, events), s)
  {
    if LastIsHighest(events) {
      forall m: Marks, s ensures At(RaiseInOrder(m, LastPerSub(events), order), s) == At(RaiseEach(m, events), s) {
        AckShortcut(m, events, order, s);
      }
    } else {
      forall k | 0 <= k < |events| ensures events[k].subId in LastPerSub(events) {
        LastPerSubIsLast(events, events[k].subId);
      }
      var k :| 0 <= k < |events| && events[k].blockNumber > LastPerSub(events)[events[k].subId].blockNumber;
      var s, m: Marks := events[k].subId, map[];
      LastKeepsSub(events);
      RaiseInOrderAt(m, LastPerSub(events), order, s);
      RaiseEachAt(m, events, s);
      assert At(RaiseInOrder(m, LastPerSub(events), order), s) != At(RaiseEach(m, events), s);
    }
  }

  // Events taken from a block-ordered source in delivery order meet the condition.
  lemma OrderedBatchLastIsHighest(events: seq<Event>)
    requires forall i, j :: 0 <= i <= j < |events| && events[i].subId == events[j].subId ==>
                              events[i].blockNumber <= events[j].blockNumber
    ensures LastIsHighest(events)
  {
    forall k | 0 <= k < |events|
      ensures events[k].subId in LastPerSub(events)
              && events[k].blockNumber <= LastPerSub(events)[events[k].subId].blockNumber
    {
      LastPerSubIsLast(events, events[k].subId);
    }
  }
}
