/** The block timestamp cache of an event stream, internal/events/subscription.go: when an answer from the
    cache is the answer the chain would have given. */
module Timestamps {
  import opened Options

  // The timestamps of the transactions of a block, by channel and block number.
  type Chain = (string, nat) -> seq<int>

  // One event to be stamped. `reachable`: a query for the block succeeds. `kept`: the blocks that survive
  // the eviction an insertion may cause.
  datatype Lookup = Lookup(channel: string, block: nat, txIndex: nat, reachable: bool, kept: set<nat>)

  function At(times: seq<int>, i: nat): Option<int> { if i < |times| then Some(times[i]) else None }

  class TimestampCache {
    // keyed by the block number alone
    var blocks: map<nat, seq<int>>

    constructor ()
      ensures blocks == map[]
    {
      blocks := map[];
    }

    // None is Go's panic on an index out of range.
    method GetEventTimestamp(chain: Chain, l: Lookup) returns (time: Option<int>)
      modifies this
      ensures (time, blocks) == Stamp(chain, old(blocks), l)
      ensures l.block in old(blocks) ==> time == At(old(blocks)[l.block], l.txIndex) && blocks == old(blocks)
      ensures l.block !in old(blocks) && !l.reachable ==> time == Some(0) && blocks == old(blocks)
      ensures l.block !in old(blocks) && l.reachable ==>
                && time == At(chain(l.channel, l.block), l.txIndex)
                && l.block in blocks && blocks[l.block] == chain(l.channel, l.block)
                && forall b :: b != l.block ==>
                     (b in blocks <==> b in old(blocks) && b in l.kept) && (b in blocks ==> blocks[b] == old(blocks)[b])
    {
      if l.block in blocks {
        return At(blocks[l.block], l.txIndex);
      }
      if !l.reachable {
        return Some(0);
      }
      var times := chain(l.channel, l.block);
      blocks := map b | b in blocks[l.block := times] && (b == l.block || b in l.kept) :: blocks[l.block := times][b];
      time := At(times, l.txIndex);
    }
  }

  function Stamp(chain: Chain, blocks: map<nat, seq<int>>, l: Lookup): (Option<int>, map<nat, seq<int>>) {
    if l.block in blocks then (At(blocks[l.block], l.txIndex), blocks)
    else if !l.reachable then (Some(0), blocks)
    else
      var more := blocks[l.block := chain(l.channel, l.block)];
      (At(chain(l.channel, l.block), l.txIndex), map b | b in more && (b == l.block || b in l.kept) :: more[b])
  }

  // The cache after a run of lookups.
  function After(chain: Chain, lookups: seq<Lookup>): map<nat, seq<int>> {
    if lookups == [] then map[] else
      Stamp(chain, After(chain, lookups[..|lookups| - 1]), lookups[|lookups| - 1]).1
  }

  // The cache holds what channel `c` would answer, transaction by transaction.
  ghost predicate Faithful(chain: Chain, blocks: map<nat, seq<int>>, c: string) {
    forall b, i: nat :: b in blocks ==> At(blocks[b], i) == At(chain(c, b), i)
  }

  // Both channels have the same times, block by block and transaction by transaction.
  ghost predicate Agree(chain: Chain, c: string, d: string) {
    forall b: nat, i: nat :: At(chain(c, b), i) == At(chain(d, b), i)
  }

  ghost predicate Among(lookups: seq<Lookup>, c: string, d: string) {
    forall i :: 0 <= i < |lookups| ==> lookups[i].channel == c || lookups[i].channel == d
  }

  lemma FaithfulStep(chain: Chain, blocks: map<nat, seq<int>>, l: Lookup, c: string, d: string)
    requires Faithful(chain, blocks, c) && Agree(chain, c, d) && (l.channel == c || l.channel == d)
    ensures Faithful(chain, Stamp(chain, blocks, l).1, c)
  {
  }

  lemma {:induction false} FaithfulRun(chain: Chain, lookups: seq<Lookup>, c: string, d: string)
    requires Among(lookups, c, d) && Agree(chain, c, d)
    ensures Faithful(chain, After(chain, lookups), c)
  {
    if lookups == [] {
    } else {
      var n := |lookups| - 1;
      FaithfulRun(chain, lookups[..n], c, d);
      FaithfulStep(chain, After(chain, lookups[..n]), lookups[n], c, d);
    }
  }

  // The stamp is the one a query would have given.
  ghost predicate Right(chain: Chain, lookups: seq<Lookup>, l: Lookup) {
    Stamp(chain, After(chain, lookups), l).0 == At(chain(l.channel, l.block), l.txIndex)
  }

  // The times of the first channel's block are found under the other channel's block of that number.
  lemma FirstWins(chain: Chain, c: string, d: string, b: nat, i: nat)
    requires At(chain(c, b), i) != At(chain(d, b), i)
    ensures !Right(chain, [Lookup(c, b, 0, true, {})], Lookup(d, b, i, true, {}))
  {
    var first := Lookup(c, b, 0, true, {});
    assert [first][..0] == [];
    assert After(chain, [first]) == Stamp(chain, map[], first).1;
    assert b in After(chain, [first]) && After(chain, [first])[b] == chain(c, b);
  }

  // Whatever is evicted and whatever queries fail, the stamps of a stream that serves two channels are all right if
  // and only if the channels agree; those of a stream that serves one always are.
  lemma SharedCacheExactly(chain: Chain, c: string, d: string)
    ensures (forall lookups, l :: Among(lookups + [l], c, d) && l.reachable ==> Right(chain, lookups, l))
            <==> Agree(chain, c, d)
  {
    if Agree(chain, c, d) {
      forall lookups, l | Among(lookups + [l], c, d) && l.reachable ensures Right(chain, lookups, l) {
        assert (lookups + [l])[|lookups|] == l && forall i :: 0 <= i < |lookups| ==> lookups[i] == (lookups + [l])[i];
        FaithfulRun(chain, lookups, c, d);
      }
    } else {
      var b: nat, i: nat :| At(chain(c, b), i) != At(chain(d, b), i);
      FirstWins(chain, c, d, b, i);
      assert Among([Lookup(c, b, 0, true, {})] + [Lookup(d, b, i, true, {})], c, d);
    }
  }

  // A chaincode event arrives without its transaction's index, so it is stamped as the block's first one.
  function ChaincodeLookup(channel: string, block: nat): Lookup { Lookup(channel, block, 0, true, {}) }

  // On one channel a stamp is the one a query would have given; a chaincode event's is its own transaction's exactly
  // when that has the time of the block's first.
  lemma CacheIsTransparent(chain: Chain, lookups: seq<Lookup>, l: Lookup)
    requires forall i :: 0 <= i < |lookups| ==> lookups[i].channel == l.channel
    ensures l.reachable ==> Right(chain, lookups, l)
    ensures Stamp(chain, After(chain, lookups), ChaincodeLookup(l.channel, l.block)).0 ==
              At(chain(l.channel, l.block), l.txIndex)
            <==> At(chain(l.channel, l.block), 0) == At(chain(l.channel, l.block), l.txIndex)
  {
    FaithfulRun(chain, lookups, l.channel, l.channel);
  }
}
