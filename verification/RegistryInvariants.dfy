/** What every run of the subscription manager keeps, whatever writes fail, and what a restart brings back. */
module RegistryInvariants {
  import opened Options
  import opened Ledger
  import opened Registry

  // Neither lookup keys nor checkpoint keys look like the ID of a document, or like each other.
  lemma KeyFamilies(cfg: Config)
    ensures forall s :: IsLookupKey(LookupKey(cfg, s)) && !IsSubId(LookupKey(cfg, s)) && !IsStreamId(LookupKey(cfg, s))
    ensures forall id ::
              !IsSubId(CheckpointKey(id)) && !IsStreamId(CheckpointKey(id)) && !IsLookupKey(CheckpointKey(id))
  {
    forall s: SubInfo ensures IsLookupKey(LookupKey(cfg, s)) && LookupKey(cfg, s)[1] == 'u' {}
    forall id: string ensures CheckpointKey(id)[0] == 'c' {}
  }

  predicate IsStreamOp(op: Op) { !op.AddSubscription? && !op.ResetSubscription? && !op.DeleteSubscription? }

  // --- in memory, unconditionally ---

  ghost predicate MemoryOk(cfg: Config, streams: map<string, StreamInfo>, subs: map<string, SubInfo>) {
    && (forall id :: id in streams ==> streams[id].id == id && IsStreamId(id) && CanStart(cfg, streams[id]))
    && (forall id :: id in subs ==> subs[id].id == id && IsSubId(id) && subs[id].stream in streams)
  }

  // Documents sit under their own IDs.
  ghost predicate Shaped(cfg: Config, db: map<string, Stored>) {
    && (forall k :: k in db && IsStreamId(k) ==>
         db[k].StreamDoc? && db[k].stream.id == k && CanStart(cfg, db[k].stream))
    && (forall k :: k in db && IsSubId(k) ==> db[k].SubDoc? && db[k].sub.id == k && db[k].sub.summary == "")
  }

  lemma StartsAgain(cfg: Config, s: StreamInfo)
    ensures CanStart(cfg, StreamDefaults(s)) == CanStart(cfg, s)
    ensures CanStart(cfg, Restored(s)) == CanStart(cfg, s) && Restored(s).id == s.id
  {
    TypesAreFixed(s.typ);
  }

  lemma ShapedPut(cfg: Config, db: map<string, Stored>, k: string, v: Stored)
    requires Shaped(cfg, db)
    requires IsStreamId(k) ==> v.StreamDoc? && v.stream.id == k && CanStart(cfg, v.stream)
    requires IsSubId(k) ==> v.SubDoc? && v.sub.id == k && v.sub.summary == ""
    ensures Shaped(cfg, db[k := v])
  {
  }

  lemma ShapedRemove(cfg: Config, db: map<string, Stored>, gone: set<string>)
    requires Shaped(cfg, db)
    ensures Shaped(cfg, db - gone)
  {
  }

  lemma ShapedStoreSub(cfg: Config, db: map<string, Stored>, s: SubInfo, writes: nat)
    requires Shaped(cfg, db) && IsSubId(s.id)
    ensures Shaped(cfg, StoreSub(cfg, db, s, writes))
  {
    KeyFamilies(cfg);
    ShapedPut(cfg, db, s.id, SubDoc(Persisted(s)));
    ShapedPut(cfg, db[s.id := SubDoc(Persisted(s))], LookupKey(cfg, s), SubRef(s.id));
  }

  lemma ShapedAfter(cfg: Config, r: Registry, op: Op)
    requires MemoryOk(cfg, r.streams, r.subs) && Shaped(cfg, r.db) && FreshIds(r, op)
    ensures Shaped(cfg, Apply(cfg, r, op).db)
  {
    match op
    case AddStream(spec, id, ok) =>
      StartsAgain(cfg, spec.(id := id));
      if CanStart(cfg, spec) { ShapedPut(cfg, r.db, id, StreamDoc(StreamDefaults(spec.(id := id)))); }
    case SetSuspended(id, value, ok) =>
      if id in r.streams { ShapedPut(cfg, r.db, id, StreamDoc(r.streams[id].(suspended := Some(value)))); }
    case DeleteStream(id, drops, ok, cpOk) =>
      ShapedRemove(cfg, r.db, DroppedKeys(cfg, r.subs, id, drops));
      ShapedRemove(cfg, r.db - DroppedKeys(cfg, r.subs, id, drops), StreamKeys(id, ok, cpOk));
    case AddSubscription(sub, id, writes) => ShapedStoreSub(cfg, r.db, SubDefaults(sub, id), writes);
    case ResetSubscription(id, fromBlock, writes) =>
      if id in r.subs { ShapedStoreSub(cfg, r.db, ResetTo(r.subs[id], fromBlock), writes); }
    case DeleteSubscription(id, deletes) =>
      if id in r.subs { ShapedRemove(cfg, r.db, SubKeys(cfg, r.subs[id], deletes)); }
    case StoreCheckpoint(id, marks, ok) =>
      KeyFamilies(cfg);
      ShapedPut(cfg, r.db, CheckpointKey(id), Checkpoint(marks));
    case Restart =>
  }

  lemma MemoryOkStream(cfg: Config, streams: map<string, StreamInfo>, subs: map<string, SubInfo>, s: StreamInfo)
    requires MemoryOk(cfg, streams, subs) && IsStreamId(s.id) && CanStart(cfg, s)
    ensures MemoryOk(cfg, streams[s.id := s], subs)
  {
  }

  lemma MemoryOkSub(cfg: Config, streams: map<string, StreamInfo>, subs: map<string, SubInfo>, s: SubInfo)
    requires MemoryOk(cfg, streams, subs) && IsSubId(s.id) && s.stream in streams
    ensures MemoryOk(cfg, streams, subs[s.id := s])
  {
  }

  lemma MemoryOkDelete(cfg: Config, streams: map<string, StreamInfo>, subs: map<string, SubInfo>, id: string)
    requires MemoryOk(cfg, streams, subs)
    ensures MemoryOk(cfg, streams - {id}, Others(subs, id)) && MemoryOk(cfg, streams, subs - {id})
  {
  }

  lemma MemoryOkAfter(cfg: Config, r: Registry, op: Op)
    requires MemoryOk(cfg, r.streams, r.subs) && Shaped(cfg, r.db) && FreshIds(r, op)
    ensures MemoryOk(cfg, Apply(cfg, r, op).streams, Apply(cfg, r, op).subs)
  {
    match op
    case AddStream(spec, id, ok) =>
      StartsAgain(cfg, spec.(id := id));
      if CanStart(cfg, spec) { MemoryOkStream(cfg, r.streams, r.subs, StreamDefaults(spec.(id := id))); }
    case SetSuspended(id, value, ok) =>
      if id in r.streams { MemoryOkStream(cfg, r.streams, r.subs, r.streams[id].(suspended := Some(value))); }
    case AddSubscription(sub, id, writes) =>
      if Accepts(cfg, r, sub, id) { MemoryOkSub(cfg, r.streams, r.subs, SubDefaults(sub, id)); }
    case ResetSubscription(id, fromBlock, writes) =>
      if id in r.subs { MemoryOkSub(cfg, r.streams, r.subs, ResetTo(r.subs[id], fromBlock)); }
    case DeleteStream(id, drops, ok, cpOk) => MemoryOkDelete(cfg, r.streams, r.subs, id);
    case DeleteSubscription(id, deletes) => MemoryOkDelete(cfg, r.streams, r.subs, id);
    case StoreCheckpoint(id, marks, ok) =>
    case Restart => RecoveredOk(cfg, cfg, r.db);
  }

  // The database may have been written under another configuration.
  lemma RecoveredOk(cfg: Config, now: Config, db: map<string, Stored>)
    requires Shaped(cfg, db)
    ensures MemoryOk(now, Recovered(now, db).streams, Recovered(now, db).subs)
  {
    forall k | k in db && IsStreamId(k) && CanStart(now, db[k].stream)
      ensures CanStart(now, Restored(db[k].stream)) && Restored(db[k].stream).id == k
    {
      StartsAgain(now, db[k].stream);
    }
  }

  lemma FreshPrefix(cfg: Config, ops: seq<Op>)
    requires FreshRun(cfg, ops) && ops != []
    ensures FreshRun(cfg, ops[..|ops| - 1]) && FreshIds(Run(cfg, ops[..|ops| - 1]), ops[|ops| - 1])
  {
    var front := ops[..|ops| - 1];
    forall i | 0 <= i < |front| ensures FreshIds(Run(cfg, front[..i]), front[i]) {
      assert front[..i] == ops[..i];
    }
  }

  // Every subscription names a live stream, in every state of every run.
  lemma {:induction false} ReferentialIntegrity(cfg: Config, ops: seq<Op>)
    requires FreshRun(cfg, ops)
    ensures MemoryOk(cfg, Run(cfg, ops).streams, Run(cfg, ops).subs) && Shaped(cfg, Run(cfg, ops).db)
  {
    if ops == [] {
    } else {
      var n := |ops| - 1;
      FreshPrefix(cfg, ops);
      ReferentialIntegrity(cfg, ops[..n]);
      ShapedAfter(cfg, Run(cfg, ops[..n]), ops[n]);
      MemoryOkAfter(cfg, Run(cfg, ops[..n]), ops[n]);
    }
  }

  // --- the uniqueness index ---

  // Live subscriptions, and stored ones, are found under their lookup keys.
  ghost predicate IndexOk(cfg: Config, subs: map<string, SubInfo>, db: map<string, Stored>) {
    && (forall id :: id in subs ==> LookupKey(cfg, subs[id]) in db && db[LookupKey(cfg, subs[id])] == SubRef(id))
    && (forall k :: k in db && IsSubId(k) && db[k].SubDoc? ==>
          LookupKey(cfg, db[k].sub) in db && db[LookupKey(cfg, db[k].sub)] == SubRef(k))
  }

  // The only write that matters to the index is the second one of an accepted subscription.
  predicate KeepsIndex(cfg: Config, r: Registry, op: Op) {
    op.AddSubscription? && Accepts(cfg, r, op.sub, op.id) ==> op.writes >= 2
  }

  lemma IndexOkPut(cfg: Config, subs: map<string, SubInfo>, db: map<string, Stored>, k: string, v: Stored)
    requires IndexOk(cfg, subs, db) && !IsLookupKey(k) && !IsSubId(k)
    ensures IndexOk(cfg, subs, db[k := v])
  {
    KeyFamilies(cfg);
  }

  lemma IndexOkRegister(cfg: Config, subs: map<string, SubInfo>, db: map<string, Stored>, s: SubInfo)
    requires IndexOk(cfg, subs, db) && (LookupKey(cfg, s) in db ==> db[LookupKey(cfg, s)] == SubRef(s.id))
    ensures IndexOk(cfg, subs[s.id := s], db[LookupKey(cfg, s) := SubRef(s.id)])
  {
    KeyFamilies(cfg);
  }

  lemma IndexOkDocument(cfg: Config, subs: map<string, SubInfo>, db: map<string, Stored>, s: SubInfo)
    requires IndexOk(cfg, subs, db) && IsSubId(s.id) && s.id in subs && LookupKey(cfg, subs[s.id]) == LookupKey(cfg, s)
    ensures IndexOk(cfg, subs, db[s.id := SubDoc(Persisted(s))])
  {
    KeyFamilies(cfg);
    assert LookupKey(cfg, Persisted(s)) == LookupKey(cfg, s);
  }

  lemma IndexOkStore(cfg: Config, subs: map<string, SubInfo>, db: map<string, Stored>, s: SubInfo, writes: nat)
    requires IndexOk(cfg, subs, db) && IsSubId(s.id)
    requires if s.id in subs then LookupKey(cfg, subs[s.id]) == LookupKey(cfg, s)
               else LookupKey(cfg, s) !in db && writes >= 2
    ensures IndexOk(cfg, subs[s.id := s], StoreSub(cfg, db, s, writes))
  {
    var key := LookupKey(cfg, s);
    KeyFamilies(cfg);
    if writes >= 2 {
      IndexOkRegister(cfg, subs, db, s);
      IndexOkDocument(cfg, subs[s.id := s], db[key := SubRef(s.id)], s);
      assert db[key := SubRef(s.id)][s.id := SubDoc(Persisted(s))] == StoreSub(cfg, db, s, writes);
    } else {
      assert db[key := SubRef(s.id)] == db;
      IndexOkRegister(cfg, subs, db, s);
      if writes == 1 { IndexOkDocument(cfg, subs[s.id := s], db, s); }
    }
  }

  // Taking a subscription's own keys away leaves the others indexed.
  lemma IndexOkRemove(cfg: Config, subs: map<string, SubInfo>, db: map<string, Stored>, rest: map<string, SubInfo>,
                      gone: set<string>)
    requires IndexOk(cfg, subs, db)
    requires forall id :: id in rest ==> id in subs && rest[id] == subs[id]
    requires forall k :: k in gone && IsLookupKey(k) ==>
               exists id :: id in subs && id !in rest && id in gone && LookupKey(cfg, subs[id]) == k
    ensures IndexOk(cfg, rest, db - gone)
  {
    KeyFamilies(cfg);
  }

  lemma SubDropKeepsIndex(cfg: Config, r: Registry, id: string, deletes: nat)
    requires MemoryOk(cfg, r.streams, r.subs) && IndexOk(cfg, r.subs, r.db) && id in r.subs
    ensures IndexOk(cfg, r.subs - {id}, r.db - SubKeys(cfg, r.subs[id], deletes))
  {
    IndexOkRemove(cfg, r.subs, r.db, r.subs - {id}, SubKeys(cfg, r.subs[id], deletes));
  }

  lemma StreamDropKeepsIndex(cfg: Config, r: Registry, id: string, drops: string -> nat)
    requires MemoryOk(cfg, r.streams, r.subs) && IndexOk(cfg, r.subs, r.db)
    ensures IndexOk(cfg, Others(r.subs, id), r.db - DroppedKeys(cfg, r.subs, id, drops))
  {
    var gone := DroppedKeys(cfg, r.subs, id, drops);
    forall k | k in gone && IsLookupKey(k)
      ensures exists i :: i in r.subs && i !in Others(r.subs, id) && i in gone && LookupKey(cfg, r.subs[i]) == k
    {
      var i :| i in r.subs && r.subs[i].stream == id && drops(i) >= 2 && LookupKey(cfg, r.subs[i]) == k;
      assert i in gone;
    }
    IndexOkRemove(cfg, r.subs, r.db, Others(r.subs, id), gone);
  }

  lemma IndexOkAfterStream(cfg: Config, r: Registry, op: Op)
    requires MemoryOk(cfg, r.streams, r.subs) && Shaped(cfg, r.db) && FreshIds(r, op)
    requires IndexOk(cfg, r.subs, r.db) && KeepsIndex(cfg, r, op)
    requires IsStreamOp(op)
    ensures IndexOk(cfg, Apply(cfg, r, op).subs, Apply(cfg, r, op).db)
  {
    match op
    case AddStream(spec, id, ok) => IndexOkPut(cfg, r.subs, r.db, id, StreamDoc(StreamDefaults(spec.(id := id))));
    case SetSuspended(id, value, ok) =>
      if id in r.streams { IndexOkPut(cfg, r.subs, r.db, id, StreamDoc(r.streams[id].(suspended := Some(value)))); }
    case DeleteStream(id, drops, ok, cpOk) =>
      if id in r.streams {
        StreamDropKeepsIndex(cfg, r, id, drops);
        KeyFamilies(cfg);
        var subs := Others(r.subs, id);
        IndexOkRemove(cfg, subs, r.db - DroppedKeys(cfg, r.subs, id, drops), subs, StreamKeys(id, ok, cpOk));
      }
    case StoreCheckpoint(id, marks, ok) =>
      KeyFamilies(cfg);
      IndexOkPut(cfg, r.subs, r.db, CheckpointKey(id), Checkpoint(marks));
    case Restart =>
  }

  lemma IndexOkAfterSub(cfg: Config, r: Registry, op: Op)
    requires MemoryOk(cfg, r.streams, r.subs) && Shaped(cfg, r.db) && FreshIds(r, op)
    requires IndexOk(cfg, r.subs, r.db) && KeepsIndex(cfg, r, op)
    requires !IsStreamOp(op)
    ensures IndexOk(cfg, Apply(cfg, r, op).subs, Apply(cfg, r, op).db)
  {
    match op
    case AddSubscription(sub, id, writes) =>
      if Accepts(cfg, r, sub, id) { IndexOkStore(cfg, r.subs, r.db, SubDefaults(sub, id), writes); }
    case ResetSubscription(id, fromBlock, writes) =>
      if id in r.subs && ValidReset(fromBlock) {
        IndexOkStore(cfg, r.subs, r.db, ResetTo(r.subs[id], fromBlock), writes);
      }
    case DeleteSubscription(id, deletes) =>
      if id in r.subs { SubDropKeepsIndex(cfg, r, id, deletes); }
  }

  lemma IndexOkAfter(cfg: Config, r: Registry, op: Op)
    requires MemoryOk(cfg, r.streams, r.subs) && Shaped(cfg, r.db) && FreshIds(r, op)
    requires IndexOk(cfg, r.subs, r.db) && KeepsIndex(cfg, r, op)
    ensures IndexOk(cfg, Apply(cfg, r, op).subs, Apply(cfg, r, op).db)
  {
    if IsStreamOp(op) { IndexOkAfterStream(cfg, r, op); } else { IndexOkAfterSub(cfg, r, op); }
  }

  ghost predicate IndexKept(cfg: Config, ops: seq<Op>) {
    forall i :: 0 <= i < |ops| ==> KeepsIndex(cfg, Run(cfg, ops[..i]), ops[i])
  }

  lemma {:induction false} IndexRun(cfg: Config, ops: seq<Op>)
    requires FreshRun(cfg, ops) && IndexKept(cfg, ops)
    ensures IndexOk(cfg, Run(cfg, ops).subs, Run(cfg, ops).db)
  {
    if ops == [] {
    } else {
      var n := |ops| - 1;
      var front := ops[..n];
      FreshPrefix(cfg, ops);
      forall i | 0 <= i < n ensures KeepsIndex(cfg, Run(cfg, front[..i]), front[i]) {
        assert front[..i] == ops[..i];
      }
      IndexRun(cfg, front);
      ReferentialIntegrity(cfg, front);
      IndexOkAfter(cfg, Run(cfg, front), ops[n]);
    }
  }

  // No two live subscriptions share channel, chaincode, block type and event filter, through any failing
  // deletes and restarts, as long as no accepted subscription missed its index write.
  lemma FiltersAreUnique(cfg: Config, ops: seq<Op>, a: string, b: string)
    requires FreshRun(cfg, ops) && IndexKept(cfg, ops)
    requires a in Run(cfg, ops).subs && b in Run(cfg, ops).subs
    ensures SameFilter(Run(cfg, ops).subs[a], Run(cfg, ops).subs[b]) ==> a == b
  {
    IndexRun(cfg, ops);
  }

  // After a subscription was accepted, another one for the same filter is accepted too exactly when the
  // first one missed its index write.
  lemma UniquenessNeedsIndex(cfg: Config, r: Registry, sub: SubInfo, id: string, id': string, writes: nat)
    requires Accepts(cfg, r, sub, id) && IsSubId(id)
    ensures Accepts(cfg, Apply(cfg, r, AddSubscription(sub, id, writes)), sub, id') <==> writes < 2
    ensures SameFilter(SubDefaults(sub, id), SubDefaults(sub, id'))
  {
    KeyFamilies(cfg);
    assert LookupKey(cfg, SubDefaults(sub, id)) == LookupKey(cfg, SubDefaults(sub, id'));
  }

  // A deleted subscription's filter has no live subscription, and is free to be taken again exactly when both
  // deletes went through.
  ghost predicate FreedExactly(cfg: Config, r: Registry, id: string, deletes: nat, sub: SubInfo, id': string) {
    var after := Apply(cfg, r, DeleteSubscription(id, deletes));
    && (Accepts(cfg, after, sub, id') <==> deletes >= 2)
    && forall other :: other in after.subs ==> !SameFilter(after.subs[other], SubDefaults(sub, id'))
  }

  lemma FreedByDelete(cfg: Config, r: Registry, id: string, deletes: nat, sub: SubInfo, id': string)
    requires MemoryOk(cfg, r.streams, r.subs) && IndexOk(cfg, r.subs, r.db) && id in r.subs
    requires SameFilter(SubDefaults(sub, id'), r.subs[id]) && sub.stream in r.streams
    ensures FreedExactly(cfg, r, id, deletes, sub, id')
  {
    KeyFamilies(cfg);
    var key := LookupKey(cfg, r.subs[id]);
    assert LookupKey(cfg, SubDefaults(sub, id')) == key;
    forall other | other in r.subs && SameFilter(r.subs[other], SubDefaults(sub, id')) ensures other == id {
      assert LookupKey(cfg, r.subs[other]) == key;
    }
  }

  // In particular, an index entry left behind turns the filter away.
  lemma DeleteFreesFilter(cfg: Config, ops: seq<Op>, id: string, deletes: nat, sub: SubInfo, id': string)
    requires FreshRun(cfg, ops) && IndexKept(cfg, ops) && id in Run(cfg, ops).subs
    requires SameFilter(SubDefaults(sub, id'), Run(cfg, ops).subs[id]) && sub.stream in Run(cfg, ops).streams
    ensures FreedExactly(cfg, Run(cfg, ops), id, deletes, sub, id')
  {
    ReferentialIntegrity(cfg, ops);
    IndexRun(cfg, ops);
    FreedByDelete(cfg, Run(cfg, ops), id, deletes, sub, id');
  }

  // --- restart ---

  // After any run, whatever failed, a restart under any configuration brings back the stored streams that can start
  // there and the stored subscriptions whose stream comes back, and no subscription without its stream.
  lemma RestartKeeps(cfg: Config, ops: seq<Op>, now: Config, k: string)
    requires FreshRun(cfg, ops)
    ensures var db, again := Run(cfg, ops).db, Recovered(now, Run(cfg, ops).db);
            && MemoryOk(now, again.streams, again.subs)
            && (k in again.streams <==> k in db && IsStreamId(k) && db[k].StreamDoc? && CanStart(now, db[k].stream))
            && (k in again.subs <==> k in db && IsSubId(k) && db[k].SubDoc? && db[k].sub.stream in again.streams)
  {
    ReferentialIntegrity(cfg, ops);
    RecoveredOk(cfg, now, Run(cfg, ops).db);
  }

  lemma RestoredOnce(s: StreamInfo)
    ensures Restored(Restored(s)) == Restored(s)
  {
    TypesAreFixed(s.typ);
  }

  // The database is a copy of the memory, up to what a restart would fill in and drop anyway.
  ghost predicate StreamsMirrored(streams: map<string, StreamInfo>, db: map<string, Stored>) {
    && (forall k :: IsStreamId(k) ==> (k in db <==> k in streams))
    && (forall k :: k in streams && k in db ==> db[k].StreamDoc? && Restored(db[k].stream) == Restored(streams[k]))
  }

  ghost predicate SubsMirrored(subs: map<string, SubInfo>, db: map<string, Stored>) {
    && (forall k :: IsSubId(k) ==> (k in db <==> k in subs))
    && (forall k :: k in subs && k in db ==> db[k] == SubDoc(subs[k].(summary := "")))
  }

  lemma RecoveredStreamsSame(cfg: Config, streams: map<string, StreamInfo>, db: map<string, Stored>)
    requires MemoryOk(cfg, streams, map[]) && Shaped(cfg, db) && StreamsMirrored(streams, db)
    ensures RecoveredStreams(cfg, db) == map id | id in streams :: Restored(streams[id])
  {
  }

  lemma RecoveredSubsSame(cfg: Config, r: Registry, streams: map<string, StreamInfo>)
    requires MemoryOk(cfg, r.streams, r.subs) && SubsMirrored(r.subs, r.db) && streams.Keys == r.streams.Keys
    ensures RecoveredSubs(streams, r.db) == map id | id in r.subs :: r.subs[id].(summary := "")
  {
  }

  // Every default has been filled in.
  ghost predicate AllFilled(streams: map<string, StreamInfo>) {
    forall id :: id in streams ==> StreamDefaults(streams[id]) == streams[id]
  }

  lemma FilledAfter(cfg: Config, r: Registry, op: Op)
    requires AllFilled(r.streams)
    ensures AllFilled(Apply(cfg, r, op).streams)
  {
    match op
    case AddStream(spec, id, ok) => FilledPut(r.streams, id, StreamDefaults(spec.(id := id)), spec.(id := id));
    case SetSuspended(id, value, ok) =>
      if id in r.streams { SuspendedFilled(r.streams[id], value); }
    case Restart => FilledRestart(cfg, r.db);
    case _ =>
  }

  lemma FilledPut(streams: map<string, StreamInfo>, id: string, s: StreamInfo, spec: StreamInfo)
    requires AllFilled(streams) && s == StreamDefaults(spec)
    ensures AllFilled(streams[id := s])
  {
    DefaultsOnce(spec);
  }

  lemma SuspendedFilled(s: StreamInfo, value: bool)
    requires StreamDefaults(s) == s
    ensures var t := s.(suspended := Some(value)); StreamDefaults(t) == t
  {
  }

  lemma FilledRestart(cfg: Config, db: map<string, Stored>)
    ensures AllFilled(RecoveredStreams(cfg, db))
  {
    forall k | k in db && db[k].StreamDoc? ensures StreamDefaults(Restored(db[k].stream)) == Restored(db[k].stream) {
      RestoredFilled(db[k].stream);
    }
  }

  lemma RestoredFilled(s: StreamInfo)
    ensures StreamDefaults(Restored(s)) == Restored(s)
  {
    TypesAreFixed(s.typ);
  }

  lemma {:induction false} FilledRun(cfg: Config, ops: seq<Op>)
    ensures AllFilled(Run(cfg, ops).streams)
  {
    if ops == [] {
    } else {
      FilledRun(cfg, ops[..|ops| - 1]);
      FilledAfter(cfg, Run(cfg, ops[..|ops| - 1]), ops[|ops| - 1]);
    }
  }

  // A stream as it was, except that a webhook's TLS option that was left out is now set to false.
  predicate Back(live: StreamInfo, again: StreamInfo) {
    && again.(webhook := live.webhook) == live && (again.webhook.Some? <==> live.webhook.Some?)
    && (live.webhook.Some? ==>
          var was, now := live.webhook.value, again.webhook.value;
          now == was.(tlsSkipHostVerify := if was.tlsSkipHostVerify.None? then Some(false) else was.tlsSkipHostVerify))
  }

  lemma RestoredBack(s: StreamInfo)
    requires StreamDefaults(s) == s
    ensures Back(s, Restored(s))
  {
  }

  // The same streams and subscriptions, the latter in all but the summary.
  ghost predicate GivesBack(r: Registry, again: Registry) {
    && again.streams.Keys == r.streams.Keys && again.subs.Keys == r.subs.Keys
    && (forall id :: id in r.streams ==> Back(r.streams[id], again.streams[id]))
    && (forall id :: id in r.subs ==> again.subs[id].(summary := r.subs[id].summary) == r.subs[id])
  }

  lemma StreamBack(streams: map<string, StreamInfo>, again: map<string, StreamInfo>, id: string)
    requires AllFilled(streams) && id in streams && again == map k | k in streams :: Restored(streams[k])
    ensures id in again && Back(streams[id], again[id])
  {
    RestoredBack(streams[id]);
  }

  lemma AllBack(r: Registry, again: Registry)
    requires AllFilled(r.streams) && again.streams == map id | id in r.streams :: Restored(r.streams[id])
    requires again.subs == map id | id in r.subs :: r.subs[id].(summary := "")
    ensures GivesBack(r, again)
  {
    forall id | id in r.streams ensures Back(r.streams[id], again.streams[id]) {
      StreamBack(r.streams, again.streams, id);
    }
  }

  // A restart from a copy gives back every stream and every subscription, and nothing else.
  lemma RecoveryRoundTrip(cfg: Config, r: Registry)
    requires MemoryOk(cfg, r.streams, r.subs) && Shaped(cfg, r.db)
    requires StreamsMirrored(r.streams, r.db) && SubsMirrored(r.subs, r.db) && AllFilled(r.streams)
    ensures GivesBack(r, Recovered(cfg, r.db))
  {
    RecoveredStreamsSame(cfg, r.streams, r.db);
    RecoveredSubsSame(cfg, r, RecoveredStreams(cfg, r.db));
    AllBack(r, Recovered(cfg, r.db));
  }

  // Every write and delete of documents goes through; those of the index and of checkpoints may not.
  ghost predicate DocumentsKept(op: Op) {
    match op
    case AddStream(_, _, ok) => ok
    case SetSuspended(_, _, ok) => ok
    case DeleteStream(_, drops, ok, _) => ok && forall id :: drops(id) >= 1
    case AddSubscription(_, _, writes) => writes >= 1
    case ResetSubscription(_, _, writes) => writes >= 1
    case DeleteSubscription(_, deletes) => deletes >= 1
    case _ => true
  }

  lemma StreamsMirroredPut(streams: map<string, StreamInfo>, db: map<string, Stored>, k: string, v: Stored)
    requires StreamsMirrored(streams, db) && !IsStreamId(k) && k !in streams
    ensures StreamsMirrored(streams, db[k := v])
  {
  }

  lemma StreamsMirroredAdd(streams: map<string, StreamInfo>, db: map<string, Stored>, s: StreamInfo)
    requires StreamsMirrored(streams, db)
    ensures StreamsMirrored(streams[s.id := s], db[s.id := StreamDoc(s)])
  {
  }

  lemma StreamsMirroredRemove(streams: map<string, StreamInfo>, db: map<string, Stored>, rest: map<string, StreamInfo>,
                              gone: set<string>)
    requires StreamsMirrored(streams, db) && (forall k :: k in rest <==> k in streams && k !in gone)
    requires forall k :: k in rest ==> rest[k] == streams[k]
    ensures StreamsMirrored(rest, db - gone)
  {
  }

  lemma StreamsMirroredStore(cfg: Config, streams: map<string, StreamInfo>, db: map<string, Stored>, s: SubInfo,
                             writes: nat)
    requires MemoryOk(cfg, streams, map[]) && StreamsMirrored(streams, db) && IsSubId(s.id)
    ensures StreamsMirrored(streams, StoreSub(cfg, db, s, writes))
  {
    KeyFamilies(cfg);
    StreamsMirroredPut(streams, db, s.id, SubDoc(Persisted(s)));
    StreamsMirroredPut(streams, db[s.id := SubDoc(Persisted(s))], LookupKey(cfg, s), SubRef(s.id));
  }

  lemma DroppedFamilies(cfg: Config, r: Registry, id: string, drops: string -> nat, k: string)
    requires MemoryOk(cfg, r.streams, r.subs)
    ensures k in DroppedKeys(cfg, r.subs, id, drops) ==>
              !IsStreamId(k) && (IsSubId(k) ==> k in r.subs && r.subs[k].stream == id)
    ensures k in r.subs && r.subs[k].stream == id && drops(k) >= 1 ==> k in DroppedKeys(cfg, r.subs, id, drops)
  {
    KeyFamilies(cfg);
  }

  lemma StreamsMirroredDelete(cfg: Config, r: Registry, id: string, drops: string -> nat, cpOk: bool)
    requires MemoryOk(cfg, r.streams, r.subs) && StreamsMirrored(r.streams, r.db)
    ensures StreamsMirrored(r.streams - {id}, r.db - DroppedKeys(cfg, r.subs, id, drops) - StreamKeys(id, true, cpOk))
  {
    var dropped := DroppedKeys(cfg, r.subs, id, drops);
    forall k | k in dropped ensures k !in r.streams { DroppedFamilies(cfg, r, id, drops, k); }
    StreamsMirroredRemove(r.streams, r.db, r.streams, dropped);
    KeyFamilies(cfg);
    StreamsMirroredRemove(r.streams, r.db - dropped, r.streams - {id}, StreamKeys(id, true, cpOk));
  }

  lemma SubsMirroredPut(subs: map<string, SubInfo>, db: map<string, Stored>, k: string, v: Stored)
    requires SubsMirrored(subs, db) && !IsSubId(k) && k !in subs
    ensures SubsMirrored(subs, db[k := v])
  {
  }

  lemma SubsMirroredRemove(subs: map<string, SubInfo>, db: map<string, Stored>, rest: map<string, SubInfo>,
                           gone: set<string>)
    requires SubsMirrored(subs, db) && (forall k :: k in rest <==> k in subs && k !in gone)
    requires forall k :: k in rest ==> rest[k] == subs[k]
    ensures SubsMirrored(rest, db - gone)
  {
  }

  lemma SubKeysFamilies(cfg: Config, r: Registry, id: string, deletes: nat, k: string)
    requires MemoryOk(cfg, r.streams, r.subs) && id in r.subs && k in SubKeys(cfg, r.subs[id], deletes)
    ensures k !in r.streams && (k in r.subs ==> k == id)
  {
    KeyFamilies(cfg);
  }

  lemma StreamsMirroredSubDelete(cfg: Config, r: Registry, id: string, deletes: nat)
    requires MemoryOk(cfg, r.streams, r.subs) && id in r.subs && StreamsMirrored(r.streams, r.db)
    ensures StreamsMirrored(r.streams, r.db - SubKeys(cfg, r.subs[id], deletes))
  {
    var gone := SubKeys(cfg, r.subs[id], deletes);
    forall k | k in gone ensures k !in r.streams { SubKeysFamilies(cfg, r, id, deletes, k); }
    StreamsMirroredRemove(r.streams, r.db, r.streams, gone);
  }

  lemma SubsMirroredSubDelete(cfg: Config, r: Registry, id: string, deletes: nat)
    requires MemoryOk(cfg, r.streams, r.subs) && id in r.subs && SubsMirrored(r.subs, r.db) && deletes >= 1
    ensures SubsMirrored(r.subs - {id}, r.db - SubKeys(cfg, r.subs[id], deletes))
  {
    var gone := SubKeys(cfg, r.subs[id], deletes);
    forall k | k in gone ensures k in r.subs ==> k == id { SubKeysFamilies(cfg, r, id, deletes, k); }
    assert id in gone;
    SubsMirroredRemove(r.subs, r.db, r.subs - {id}, gone);
  }

  lemma StreamsMirroredAfterStream(cfg: Config, r: Registry, op: Op)
    requires MemoryOk(cfg, r.streams, r.subs) && Shaped(cfg, r.db) && FreshIds(r, op) && DocumentsKept(op)
    requires StreamsMirrored(r.streams, r.db)
    requires IsStreamOp(op)
    ensures StreamsMirrored(Apply(cfg, r, op).streams, Apply(cfg, r, op).db)
  {
    match op
    case AddStream(spec, id, ok) => StreamsMirroredAdd(r.streams, r.db, StreamDefaults(spec.(id := id)));
    case SetSuspended(id, value, ok) =>
      if id in r.streams { StreamsMirroredAdd(r.streams, r.db, r.streams[id].(suspended := Some(value))); }
    case DeleteStream(id, drops, ok, cpOk) => StreamsMirroredDelete(cfg, r, id, drops, cpOk);
    case StoreCheckpoint(id, marks, ok) =>
      KeyFamilies(cfg);
      StreamsMirroredPut(r.streams, r.db, CheckpointKey(id), Checkpoint(marks));
    case Restart => RestartMirrorsStreams(cfg, r.db);
  }

  lemma StreamsMirroredAfterSub(cfg: Config, r: Registry, op: Op)
    requires MemoryOk(cfg, r.streams, r.subs) && Shaped(cfg, r.db) && FreshIds(r, op) && DocumentsKept(op)
    requires StreamsMirrored(r.streams, r.db)
    requires !IsStreamOp(op)
    ensures StreamsMirrored(Apply(cfg, r, op).streams, Apply(cfg, r, op).db)
  {
    match op
    case AddSubscription(sub, id, writes) => StreamsMirroredStore(cfg, r.streams, r.db, SubDefaults(sub, id), writes);
    case ResetSubscription(id, fromBlock, writes) =>
      if id in r.subs { StreamsMirroredStore(cfg, r.streams, r.db, ResetTo(r.subs[id], fromBlock), writes); }
    case DeleteSubscription(id, deletes) => if id in r.subs { StreamsMirroredSubDelete(cfg, r, id, deletes); }
  }

  lemma StreamsMirroredAfter(cfg: Config, r: Registry, op: Op)
    requires MemoryOk(cfg, r.streams, r.subs) && Shaped(cfg, r.db) && FreshIds(r, op) && DocumentsKept(op)
    requires StreamsMirrored(r.streams, r.db)
    ensures StreamsMirrored(Apply(cfg, r, op).streams, Apply(cfg, r, op).db)
  {
    if IsStreamOp(op) { StreamsMirroredAfterStream(cfg, r, op); } else { StreamsMirroredAfterSub(cfg, r, op); }
  }

  lemma RestartMirrorsStreams(cfg: Config, db: map<string, Stored>)
    requires Shaped(cfg, db)
    ensures StreamsMirrored(RecoveredStreams(cfg, db), db)
  {
    forall k | k in db && IsStreamId(k) ensures Restored(Restored(db[k].stream)) == Restored(db[k].stream) {
      RestoredOnce(db[k].stream);
    }
  }

  lemma SubsMirroredStore(cfg: Config, r: Registry, s: SubInfo, writes: nat)
    requires MemoryOk(cfg, r.streams, r.subs) && SubsMirrored(r.subs, r.db) && IsSubId(s.id) && writes >= 1
    ensures SubsMirrored(r.subs[s.id := s], StoreSub(cfg, r.db, s, writes))
  {
    KeyFamilies(cfg);
    SubsMirroredPut(r.subs[s.id := s], r.db[s.id := SubDoc(Persisted(s))], LookupKey(cfg, s), SubRef(s.id));
  }

  lemma SubsMirroredDelete(cfg: Config, r: Registry, id: string, drops: string -> nat, cpOk: bool)
    requires MemoryOk(cfg, r.streams, r.subs) && SubsMirrored(r.subs, r.db) && id in r.streams
    requires forall i :: drops(i) >= 1
    ensures SubsMirrored(Others(r.subs, id), r.db - DroppedKeys(cfg, r.subs, id, drops) - StreamKeys(id, true, cpOk))
  {
    var dropped, rest := DroppedKeys(cfg, r.subs, id, drops), Others(r.subs, id);
    forall k ensures k in rest <==> k in r.subs && k !in dropped { DroppedFamilies(cfg, r, id, drops, k); }
    SubsMirroredRemove(r.subs, r.db, rest, dropped);
    KeyFamilies(cfg);
    SubsMirroredRemove(rest, r.db - dropped, rest, StreamKeys(id, true, cpOk));
  }

  lemma RestartMirrorsSubs(cfg: Config, r: Registry)
    requires MemoryOk(cfg, r.streams, r.subs) && Shaped(cfg, r.db)
    requires StreamsMirrored(r.streams, r.db) && SubsMirrored(r.subs, r.db)
    ensures SubsMirrored(Recovered(cfg, r.db).subs, r.db)
  {
    RecoveredStreamsSame(cfg, r.streams, r.db);
    RecoveredSubsSame(cfg, r, RecoveredStreams(cfg, r.db));
    PersistedMirrors(r.subs, r.db);
  }

  lemma PersistedMirrors(subs: map<string, SubInfo>, db: map<string, Stored>)
    requires SubsMirrored(subs, db)
    ensures SubsMirrored(map id | id in subs :: subs[id].(summary := ""), db)
  {
  }

  lemma SubsMirroredAfterStream(cfg: Config, r: Registry, op: Op)
    requires MemoryOk(cfg, r.streams, r.subs) && Shaped(cfg, r.db) && FreshIds(r, op) && DocumentsKept(op)
    requires StreamsMirrored(r.streams, r.db) && SubsMirrored(r.subs, r.db)
    requires IsStreamOp(op)
    ensures SubsMirrored(Apply(cfg, r, op).subs, Apply(cfg, r, op).db)
  {
    match op
    case AddStream(spec, id, ok) => SubsMirroredPut(r.subs, r.db, id, StreamDoc(StreamDefaults(spec.(id := id))));
    case SetSuspended(id, value, ok) =>
      if id in r.streams { SubsMirroredPut(r.subs, r.db, id, StreamDoc(r.streams[id].(suspended := Some(value)))); }
    case DeleteStream(id, drops, ok, cpOk) => if id in r.streams { SubsMirroredDelete(cfg, r, id, drops, cpOk); }
    case StoreCheckpoint(id, marks, ok) =>
      KeyFamilies(cfg);
      SubsMirroredPut(r.subs, r.db, CheckpointKey(id), Checkpoint(marks));
    case Restart => RestartMirrorsSubs(cfg, r);
  }

  lemma SubsMirroredAfterSub(cfg: Config, r: Registry, op: Op)
    requires MemoryOk(cfg, r.streams, r.subs) && Shaped(cfg, r.db) && FreshIds(r, op) && DocumentsKept(op)
    requires StreamsMirrored(r.streams, r.db) && SubsMirrored(r.subs, r.db)
    requires !IsStreamOp(op)
    ensures SubsMirrored(Apply(cfg, r, op).subs, Apply(cfg, r, op).db)
  {
    match op
    case AddSubscription(sub, id, writes) => SubsMirroredStore(cfg, r, SubDefaults(sub, id), writes);
    case ResetSubscription(id, fromBlock, writes) =>
      if id in r.subs { SubsMirroredStore(cfg, r, ResetTo(r.subs[id], fromBlock), writes); }
    case DeleteSubscription(id, deletes) => if id in r.subs { SubsMirroredSubDelete(cfg, r, id, deletes); }
  }

  lemma SubsMirroredAfter(cfg: Config, r: Registry, op: Op)
    requires MemoryOk(cfg, r.streams, r.subs) && Shaped(cfg, r.db) && FreshIds(r, op) && DocumentsKept(op)
    requires StreamsMirrored(r.streams, r.db) && SubsMirrored(r.subs, r.db)
    ensures SubsMirrored(Apply(cfg, r, op).subs, Apply(cfg, r, op).db)
  {
    if IsStreamOp(op) { SubsMirroredAfterStream(cfg, r, op); } else { SubsMirroredAfterSub(cfg, r, op); }
  }

  // If no write or delete of a document failed, a restart brings back all that is live, and only that.
  lemma {:induction false} MirroredRun(cfg: Config, ops: seq<Op>)
    requires FreshRun(cfg, ops) && forall i :: 0 <= i < |ops| ==> DocumentsKept(ops[i])
    ensures var r := Run(cfg, ops); StreamsMirrored(r.streams, r.db) && SubsMirrored(r.subs, r.db)
  {
    if ops == [] {
    } else {
      var n := |ops| - 1;
      FreshPrefix(cfg, ops);
      MirroredRun(cfg, ops[..n]);
      ReferentialIntegrity(cfg, ops[..n]);
      StreamsMirroredAfter(cfg, Run(cfg, ops[..n]), ops[n]);
      SubsMirroredAfter(cfg, Run(cfg, ops[..n]), ops[n]);
    }
  }

  lemma RestartAfterRun(cfg: Config, ops: seq<Op>)
    requires FreshRun(cfg, ops) && forall i :: 0 <= i < |ops| ==> DocumentsKept(ops[i])
    ensures GivesBack(Run(cfg, ops), Apply(cfg, Run(cfg, ops), Restart))
  {
    MirroredRun(cfg, ops);
    ReferentialIntegrity(cfg, ops);
    FilledRun(cfg, ops);
    RestartGivesBack(cfg, Run(cfg, ops));
  }

  lemma RestartGivesBack(cfg: Config, r: Registry)
    requires MemoryOk(cfg, r.streams, r.subs) && Shaped(cfg, r.db)
    requires StreamsMirrored(r.streams, r.db) && SubsMirrored(r.subs, r.db) && AllFilled(r.streams)
    ensures GivesBack(r, Apply(cfg, r, Restart))
  {
    RecoveryRoundTrip(cfg, r);
  }

  // Under another configuration: the streams that can start there, and the subscriptions whose stream can.
  ghost predicate GivesBackUnder(now: Config, r: Registry, again: Registry) {
    && (forall id :: id in again.streams <==> id in r.streams && CanStart(now, r.streams[id]))
    && (forall id :: id in again.streams ==> Back(r.streams[id], again.streams[id]))
    && again.subs == map id | id in r.subs && r.subs[id].stream in again.streams :: r.subs[id].(summary := "")
  }

  lemma StreamsUnder(cfg: Config, now: Config, streams: map<string, StreamInfo>, db: map<string, Stored>)
    requires MemoryOk(cfg, streams, map[]) && Shaped(cfg, db) && StreamsMirrored(streams, db)
    ensures RecoveredStreams(now, db) == map id | id in streams && CanStart(now, streams[id]) :: Restored(streams[id])
  {
    forall id | id in streams && id in db ensures CanStart(now, db[id].stream) <==> CanStart(now, streams[id]) {
      StartsAgain(now, db[id].stream);
      StartsAgain(now, streams[id]);
    }
  }

  lemma SubsUnder(cfg: Config, r: Registry, streams: map<string, StreamInfo>)
    requires MemoryOk(cfg, r.streams, r.subs) && SubsMirrored(r.subs, r.db)
    ensures RecoveredSubs(streams, r.db) ==
            map id | id in r.subs && r.subs[id].stream in streams :: r.subs[id].(summary := "")
  {
  }

  lemma RestartUnder(cfg: Config, ops: seq<Op>, now: Config)
    requires FreshRun(cfg, ops) && forall i :: 0 <= i < |ops| ==> DocumentsKept(ops[i])
    ensures GivesBackUnder(now, Run(cfg, ops), Recovered(now, Run(cfg, ops).db))
  {
    MirroredRun(cfg, ops);
    ReferentialIntegrity(cfg, ops);
    StreamsUnder(cfg, now, Run(cfg, ops).streams, Run(cfg, ops).db);
    SubsUnder(cfg, Run(cfg, ops), RecoveredStreams(now, Run(cfg, ops).db));
    FilledRun(cfg, ops);
    var streams := Run(cfg, ops).streams;
    forall id | id in streams ensures Back(streams[id], Restored(streams[id])) { RestoredBack(streams[id]); }
  }

  // --- no index entry outlives its subscription ---

  ghost predicate NoStale(cfg: Config, subs: map<string, SubInfo>, db: map<string, Stored>) {
    forall k :: k in db && IsLookupKey(k) ==> db[k].SubRef? && db[k].id in subs && LookupKey(cfg, subs[db[k].id]) == k
  }

  ghost predicate NothingFails(op: Op) {
    && DocumentsKept(op)
    && (op.AddSubscription? ==> op.writes >= 2)
    && (op.DeleteSubscription? ==> op.deletes >= 2)
    && (op.DeleteStream? ==> forall id :: op.drops(id) >= 2)
  }

  lemma NoStalePut(cfg: Config, subs: map<string, SubInfo>, db: map<string, Stored>, k: string, v: Stored)
    requires NoStale(cfg, subs, db) && !IsLookupKey(k)
    ensures NoStale(cfg, subs, db[k := v])
  {
  }

  lemma NoStaleStore(cfg: Config, subs: map<string, SubInfo>, db: map<string, Stored>, s: SubInfo, writes: nat)
    requires NoStale(cfg, subs, db) && IsSubId(s.id)
    requires (s.id in subs ==> LookupKey(cfg, subs[s.id]) == LookupKey(cfg, s))
    ensures NoStale(cfg, subs[s.id := s], StoreSub(cfg, db, s, writes))
  {
    KeyFamilies(cfg);
    assert NoStale(cfg, subs[s.id := s], db);
    NoStalePut(cfg, subs[s.id := s], db, s.id, SubDoc(Persisted(s)));
  }

  lemma NoStaleRemove(cfg: Config, subs: map<string, SubInfo>, db: map<string, Stored>, rest: map<string, SubInfo>,
                      gone: set<string>)
    requires NoStale(cfg, subs, db)
    requires forall id :: id in subs ==> LookupKey(cfg, subs[id]) in gone || (id in rest && rest[id] == subs[id])
    ensures NoStale(cfg, rest, db - gone)
  {
  }

  lemma NoStaleSubDelete(cfg: Config, r: Registry, id: string, deletes: nat)
    requires MemoryOk(cfg, r.streams, r.subs) && NoStale(cfg, r.subs, r.db) && id in r.subs && deletes >= 2
    ensures NoStale(cfg, r.subs - {id}, r.db - SubKeys(cfg, r.subs[id], deletes))
  {
    NoStaleRemove(cfg, r.subs, r.db, r.subs - {id}, SubKeys(cfg, r.subs[id], deletes));
  }

  lemma NoStaleStreamDelete(cfg: Config, r: Registry, id: string, drops: string -> nat, ok: bool, cpOk: bool)
    requires NoStale(cfg, r.subs, r.db) && forall i :: drops(i) >= 2
    ensures NoStale(cfg, Others(r.subs, id), r.db - DroppedKeys(cfg, r.subs, id, drops) - StreamKeys(id, ok, cpOk))
  {
    var dropped := DroppedKeys(cfg, r.subs, id, drops);
    forall i | i in r.subs && r.subs[i].stream == id ensures LookupKey(cfg, r.subs[i]) in dropped {
      assert drops(i) >= 2;
    }
    NoStaleRemove(cfg, r.subs, r.db, Others(r.subs, id), dropped);
    NoStaleRemove(cfg, Others(r.subs, id), r.db - dropped, Others(r.subs, id), StreamKeys(id, ok, cpOk));
  }

  lemma NoStaleRestart(cfg: Config, r: Registry)
    requires NoStale(cfg, r.subs, r.db)
    requires Recovered(cfg, r.db).subs == map id | id in r.subs :: r.subs[id].(summary := "")
    ensures NoStale(cfg, Recovered(cfg, r.db).subs, r.db)
  {
    var subs := Recovered(cfg, r.db).subs;
    forall k | k in r.db && IsLookupKey(k)
      ensures r.db[k].SubRef? && r.db[k].id in subs && LookupKey(cfg, subs[r.db[k].id]) == k
    {
      var id := r.db[k].id;
      assert subs[id] == r.subs[id].(summary := "");
    }
  }

  lemma NoStaleAfterStream(cfg: Config, r: Registry, op: Op)
    requires MemoryOk(cfg, r.streams, r.subs) && Shaped(cfg, r.db) && FreshIds(r, op) && NothingFails(op)
    requires StreamsMirrored(r.streams, r.db) && SubsMirrored(r.subs, r.db) && NoStale(cfg, r.subs, r.db)
    requires IsStreamOp(op)
    ensures NoStale(cfg, Apply(cfg, r, op).subs, Apply(cfg, r, op).db)
  {
    match op
    case AddStream(spec, id, ok) => NoStalePut(cfg, r.subs, r.db, id, StreamDoc(StreamDefaults(spec.(id := id))));
    case SetSuspended(id, value, ok) =>
      if id in r.streams { NoStalePut(cfg, r.subs, r.db, id, StreamDoc(r.streams[id].(suspended := Some(value)))); }
    case DeleteStream(id, drops, ok, cpOk) => NoStaleStreamDelete(cfg, r, id, drops, ok, cpOk);
    case StoreCheckpoint(id, marks, ok) =>
      KeyFamilies(cfg);
      NoStalePut(cfg, r.subs, r.db, CheckpointKey(id), Checkpoint(marks));
    case Restart =>
      RecoveredStreamsSame(cfg, r.streams, r.db);
      RecoveredSubsSame(cfg, r, RecoveredStreams(cfg, r.db));
      NoStaleRestart(cfg, r);
  }

  lemma NoStaleReset(cfg: Config, r: Registry, id: string, fromBlock: string, writes: nat)
    requires MemoryOk(cfg, r.streams, r.subs) && NoStale(cfg, r.subs, r.db) && id in r.subs
    ensures var s := ResetTo(r.subs[id], fromBlock); NoStale(cfg, r.subs[id := s], StoreSub(cfg, r.db, s, writes))
  {
    var s := ResetTo(r.subs[id], fromBlock);
    assert LookupKey(cfg, s) == LookupKey(cfg, r.subs[id]);
    NoStaleStore(cfg, r.subs, r.db, s, writes);
  }

  lemma NoStaleAfterSub(cfg: Config, r: Registry, op: Op)
    requires MemoryOk(cfg, r.streams, r.subs) && Shaped(cfg, r.db) && FreshIds(r, op) && NothingFails(op)
    requires StreamsMirrored(r.streams, r.db) && SubsMirrored(r.subs, r.db) && NoStale(cfg, r.subs, r.db)
    requires !IsStreamOp(op)
    ensures NoStale(cfg, Apply(cfg, r, op).subs, Apply(cfg, r, op).db)
  {
    match op
    case AddSubscription(sub, id, writes) =>
      if Accepts(cfg, r, sub, id) { NoStaleStore(cfg, r.subs, r.db, SubDefaults(sub, id), writes); }
    case ResetSubscription(id, fromBlock, writes) =>
      if id in r.subs && ValidReset(fromBlock) { NoStaleReset(cfg, r, id, fromBlock, writes); }
    case DeleteSubscription(id, deletes) => if id in r.subs { NoStaleSubDelete(cfg, r, id, deletes); }
  }

  lemma NoStaleAfter(cfg: Config, r: Registry, op: Op)
    requires MemoryOk(cfg, r.streams, r.subs) && Shaped(cfg, r.db) && FreshIds(r, op) && NothingFails(op)
    requires StreamsMirrored(r.streams, r.db) && SubsMirrored(r.subs, r.db) && NoStale(cfg, r.subs, r.db)
    ensures NoStale(cfg, Apply(cfg, r, op).subs, Apply(cfg, r, op).db)
  {
    if IsStreamOp(op) { NoStaleAfterStream(cfg, r, op); } else { NoStaleAfterSub(cfg, r, op); }
  }

  lemma {:induction false} NoStaleRun(cfg: Config, ops: seq<Op>)
    requires FreshRun(cfg, ops) && forall i :: 0 <= i < |ops| ==> NothingFails(ops[i])
    ensures NoStale(cfg, Run(cfg, ops).subs, Run(cfg, ops).db)
  {
    if ops == [] {
    } else {
      var n := |ops| - 1;
      FreshPrefix(cfg, ops);
      NoStaleRun(cfg, ops[..n]);
      ReferentialIntegrity(cfg, ops[..n]);
      MirroredRun(cfg, ops[..n]);
      NoStaleAfter(cfg, Run(cfg, ops[..n]), ops[n]);
    }
  }

  // As long as nothing fails, a subscription is turned away as a duplicate exactly when a live one has its
  // lookup key.
  lemma RefusedIffTaken(cfg: Config, ops: seq<Op>, sub: SubInfo, id: string)
    requires FreshRun(cfg, ops) && forall i :: 0 <= i < |ops| ==> NothingFails(ops[i])
    ensures var r, key := Run(cfg, ops), LookupKey(cfg, SubDefaults(sub, id));
            key in r.db <==> exists other :: other in r.subs && LookupKey(cfg, r.subs[other]) == key
  {
    NoStaleRun(cfg, ops);
    forall i | 0 <= i < |ops| ensures KeepsIndex(cfg, Run(cfg, ops[..i]), ops[i]) { assert NothingFails(ops[i]); }
    IndexRun(cfg, ops);
    KeyFamilies(cfg);
  }
}
